/**
 * Why no listener stays suspended with a job (machine/loadRunners.ts, LoadGate): the second look comes after a listing
 * taken anew, which shows the worker of a job, and listeners log their jobs; so a job that no worker runs must stay in
 * the log that is read.
 */
module LoadGateTold {
  import opened Prelude
  import opened RunnerWorld
  import opened BenchRunners
  import opened RunnerRuns
  import opened RunnerTold
  import opened LoadGate
  import Runs = LoadGateRuns

  lemma CountsAreSignals(w: World, q: Pid)
    ensures SameBut(w, Suspend(w, q)) && SameBut(w, Resume(w, q))
  {
    hide Suspend;
    hide Resume;
  }

  lemma SuspendOneLeads(m: Moment, l: Listener, c: seq<Listener>, kept: seq<Paused>, g: Settings, sc: Script, p: Pid,
                        owns: nat -> bool, k: nat)
    ensures Leads(m, SuspendOne(m, l, c, kept, g, sc).0, p, owns, k)
  {
    hide Leads;
    hide Suspend;
    hide SameBut;
    hide LogOf;
    hide HasWorker;
    hide HappenAll;
    hide Trace;
    var m1 := Meanwhile(m, sc);
    var m2 := Meanwhile(m1, sc);
    Stay(m, p, owns, k);
    MeanwhileLeads(m, sc, p, owns, k);
    MeanwhileLeads(m1, sc, p, owns, k);
    LeadsThen(m, m1, m2, p, owns, k);
    CountsAreSignals(m2.w, l.pid);
    SignalLeads(m2, Suspend(m2.w, l.pid), p, owns, k);
    LeadsThen(m, m2, m2.(w := Suspend(m2.w, l.pid)), p, owns, k);
  }

  lemma {:induction false} SuspendAllLeads(m: Moment, ls: seq<Listener>, c: seq<Listener>, kept: seq<Paused>,
                                           g: Settings, sc: Script,
                                           p: Pid, owns: nat -> bool, k: nat)
    ensures Leads(m, SuspendAll(m, ls, c, kept, g, sc).0, p, owns, k)
    decreases |ls|
  {
    hide Leads;
    hide SuspendOne;
    if ls == [] {
      Stay(m, p, owns, k);
    } else {
      var m1 := SuspendAll(m, ls[..|ls| - 1], c, kept, g, sc).0;
      SuspendAllLeads(m, ls[..|ls| - 1], c, kept, g, sc, p, owns, k);
      SuspendOneLeads(m1, ls[|ls| - 1], c, kept, g, sc, p, owns, k);
      LeadsThen(m, m1, SuspendAll(m, ls, c, kept, g, sc).0, p, owns, k);
    }
  }

  lemma RecheckOneLeads(m: Moment, h: Halted, again: seq<Listener>, sc: Script, p: Pid, owns: nat -> bool, k: nat)
    ensures Leads(m, RecheckOne(m, h, again, sc).0, p, owns, k)
    ensures RecheckOne(m, h, again, sc).0.trace == Meanwhile(m, sc).trace
  {
    hide Leads;
    hide Resume;
    hide SameBut;
    hide TookAJob;
    hide HappenAll;
    hide Trace;
    var m1 := Meanwhile(m, sc);
    MeanwhileLeads(m, sc, p, owns, k);
    CountsAreSignals(m1.w, h.pid);
    SignalLeads(m1, Resume(m1.w, h.pid), p, owns, k);
    LeadsThen(m, m1, m1.(w := Resume(m1.w, h.pid)), p, owns, k);
  }

  lemma {:induction false} RecheckAllLeads(m: Moment, hs: seq<Halted>, j: nat, n: nat, again: seq<Listener>, sc: Script,
                                           p: Pid,
                                           owns: nat -> bool, k: nat)
    requires j <= n <= |hs|
    ensures Leads(RecheckAll(m, hs[..j], again, sc).0, RecheckAll(m, hs[..n], again, sc).0, p, owns, k)
    decreases n
  {
    hide Leads;
    hide RecheckOne;
    var mj := RecheckAll(m, hs[..j], again, sc).0;
    if j == n {
      Stay(mj, p, owns, k);
    } else {
      assert hs[..n][..n - 1] == hs[..n - 1];
      var m1 := RecheckAll(m, hs[..n - 1], again, sc).0;
      RecheckAllLeads(m, hs, j, n - 1, again, sc, p, owns, k);
      RecheckOneLeads(m1, hs[n - 1], again, sc, p, owns, k);
      LeadsThen(mj, m1, RecheckAll(m, hs[..n], again, sc).0, p, owns, k);
    }
  }

  lemma {:induction false} ResumeListLeads(m: Moment, suspended: seq<Paused>, ls: seq<Listener>, sc: Script, p: Pid,
                                           owns: nat -> bool, k: nat)
    ensures Leads(m, ResumeList(m, suspended, ls, sc), p, owns, k)
    decreases |suspended|
  {
    hide Leads;
    hide Resume;
    hide SameBut;
    hide HappenAll;
    hide Trace;
    if suspended == [] {
      Stay(m, p, owns, k);
    } else {
      var m1, q := ResumeList(m, suspended[..|suspended| - 1], ls, sc), suspended[|suspended| - 1];
      ResumeListLeads(m, suspended[..|suspended| - 1], ls, sc, p, owns, k);
      var m2 := Meanwhile(m1, sc);
      MeanwhileLeads(m1, sc, p, owns, k);
      LeadsThen(m, m1, m2, p, owns, k);
      CountsAreSignals(m2.w, q.pid);
      SignalLeads(m2, Resume(m2.w, q.pid), p, owns, k);
      LeadsThen(m, m2, m2.(w := Resume(m2.w, q.pid)), p, owns, k);
    }
  }

  lemma GateLookLeads(suspended: seq<Paused>, w: World, g: Settings, sc: Script, p: Pid, owns: nat -> bool, k: nat)
    ensures var f := GateLook(suspended, w, g, sc);
            Leads(Start(w), f.m, p, owns, k) && Leads(Start(w), Meanwhile(f.m, sc), p, owns, k)
  {
    hide Leads;
    hide SuspendAll;
    hide KeepSame;
    hide HappenAll;
    hide Trace;
    var f, m := GateLook(suspended, w, g, sc), Listing(w, sc);
    MeanwhileLeads(Start(w), sc, p, owns, k);
    SuspendAllLeads(m, m.w.ls, m.w.ls, KeepSame(suspended, m.w.ls), g, sc, p, owns, k);
    LeadsThen(Start(w), m, f.m, p, owns, k);
    MeanwhileLeads(f.m, sc, p, owns, k);
    LeadsThen(Start(w), f.m, Meanwhile(f.m, sc), p, owns, k);
  }

  /** The moment of the second look at the `j`-th listener suspended. */
  function RecheckAt(suspended: seq<Paused>, w: World, g: Settings, sc: Script, j: nat): Moment
    requires j <= |GateLook(suspended, w, g, sc).hs|
  {
    var f := GateLook(suspended, w, g, sc);
    RecheckAll(Meanwhile(f.m, sc), f.hs[..j], Meanwhile(f.m, sc).w.ls, sc).0
  }

  lemma BackLeads(suspended: seq<Paused>, w: World, g: Settings, sc: Script, j: nat, p: Pid, owns: nat -> bool, k: nat)
    requires j <= |GateLook(suspended, w, g, sc).hs|
    ensures Leads(Start(w), RecheckAt(suspended, w, g, sc, j), p, owns, k)
    ensures Leads(RecheckAt(suspended, w, g, sc, j), GateRecheck(suspended, w, g, sc).0, p, owns, k)
    ensures j < |GateLook(suspended, w, g, sc).hs| ==>
      Meanwhile(RecheckAt(suspended, w, g, sc, j), sc).trace <= GateRecheck(suspended, w, g, sc).0.trace
  {
    hide GateLook;
    hide Leads;
    hide RecheckOne;
    hide HappenAll;
    hide Trace;
    var f := GateLook(suspended, w, g, sc);
    var m := Meanwhile(f.m, sc);
    GateLookLeads(suspended, w, g, sc, p, owns, k);
    assert f.hs[..0] == [] && f.hs[..|f.hs|] == f.hs && RecheckAll(m, [], m.w.ls, sc) == (m, []);
    RecheckAllLeads(m, f.hs, 0, j, m.w.ls, sc, p, owns, k);
    RecheckAllLeads(m, f.hs, j, |f.hs|, m.w.ls, sc, p, owns, k);
    LeadsThen(Start(w), m, RecheckAt(suspended, w, g, sc, j), p, owns, k);
    if j < |f.hs| {
      assert f.hs[..j + 1][..j] == f.hs[..j];
      RecheckOneLeads(RecheckAt(suspended, w, g, sc, j), f.hs[j], m.w.ls, sc, p, owns, k);
      RecheckAllLeads(m, f.hs, j + 1, |f.hs|, m.w.ls, sc, p, owns, k);
      LeadsOn(RecheckAll(m, f.hs[..j + 1], m.w.ls, sc).0, GateRecheck(suspended, w, g, sc).0, p, owns, k);
    }
  }

  lemma SuspendIdleLeads(b: Ledger, w: World, g: Settings, sc: Script, p: Pid, owns: nat -> bool, k: nat)
    ensures Leads(Start(w), SuspendIdle(b, w, g, sc).1, p, owns, k)
  {
    hide GateLook;
    hide GateRecheck;
    hide GateClosing;
    hide Leads;
    hide HappenAll;
    hide Trace;
    hide RecheckAt;
    var f := GateLook(b.st.suspended, w, g, sc);
    MeanwhileLeads(Start(w), sc, p, owns, k);
    GateLookLeads(b.st.suspended, w, g, sc, p, owns, k);
    BackLeads(b.st.suspended, w, g, sc, 0, p, owns, k);
    LeadsThen(Start(w), RecheckAt(b.st.suspended, w, g, sc, 0), GateRecheck(b.st.suspended, w, g, sc).0, p, owns, k);
  }

  lemma ResumeAllLeads(b: Ledger, w: World, sc: Script, p: Pid, owns: nat -> bool, k: nat)
    ensures Leads(Start(w), ResumeAll(b, w, sc).1, p, owns, k)
  {
    hide ResumeList;
    hide Leads;
    hide HappenAll;
    hide Trace;
    var m := Listing(w, sc);
    MeanwhileLeads(Start(w), sc, p, owns, k);
    ResumeListLeads(m, b.st.suspended, m.w.ls, sc, p, owns, k);
    LeadsThen(Start(w), m, ResumeList(m, b.st.suspended, m.w.ls, sc), p, owns, k);
  }

  lemma TurnLeads(b: Ledger, w: World, g: Option<Settings>, closed: bool, sc: Script, p: Pid, owns: nat -> bool, k: nat)
    ensures Leads(Start(w), Turn(b, w, g, closed, sc).1, p, owns, k)
  {
    hide SuspendIdle;
    hide ResumeAll;
    hide Leads;
    Stay(Start(w), p, owns, k);
    ResumeAllLeads(b, w, sc, p, owns, k);
    ResumeAllLeads(Moved(b, false), w, sc, p, owns, k);
    if g.Some? {
      SuspendIdleLeads(Moved(b, true), w, g.value, sc, p, owns, k);
    }
  }

  /** No step taking a job that no worker runs out of sight, the second looks find every listener told. */
  lemma GentleIsTold(b: Ledger, w: World, g: Settings, sc: Script)
    requires Distinct(w.ls) && Told(w, Runs.Nobody) && !sc.fails && !Runs.Loses(b.st.suspended, w, g, sc)
    requires GentleFrom(SuspendIdle(b, w, g, sc).1.trace, 0, Runs.Nobody)
    ensures Runs.ToldTick(b.st.suspended, w, g, sc)
  {
    hide GateLook;
    hide GateRecheck;
    hide GateClosing;
    hide RecheckAll;
    hide Leads;
    hide HappenAll;
    hide Trace;
    hide ToldOf;
    hide Told;
    hide GentleFrom;
    hide Distinct;
    var f := GateLook(b.st.suspended, w, g, sc);
    forall j | 0 <= j < |f.hs|
      ensures ToldOf(Meanwhile(RecheckAll(Meanwhile(f.m, sc), f.hs[..j], Meanwhile(f.m, sc).w.ls, sc).0, sc).w,
        f.hs[j].pid, Runs.Nobody)
    {
      var p, back := f.hs[j].pid, RecheckAt(b.st.suspended, w, g, sc, j);
      hide RecheckAt;
      BackLeads(b.st.suspended, w, g, sc, j, p, Runs.Nobody, 0);
      MeanwhileLeads(back, sc, p, Runs.Nobody, 0);
      LeadsThen(Start(w), back, Meanwhile(back, sc), p, Runs.Nobody, 0);
      GentleBefore(Meanwhile(back, sc).trace, GateRecheck(b.st.suspended, w, g, sc).0.trace, 0, Runs.Nobody);
      ToldAll(w, Runs.Nobody, p);
      LeadsIs(Start(w), Meanwhile(back, sc), p, Runs.Nobody, 0);
    }
  }

  // ------------------------------------------------------------------ runs

  /** What is asked of the machine: no step takes a job that no worker runs out of sight. */
  ghost predicate GentleEvent(s: Runs.Gated, e: Runs.Event) {
    match e
    case GateTicks(g, now, pct, sc) => GentleFrom(Turn(s.b, s.w, g, Runs.ClosedThen(s, g, now, pct), sc).1.trace, 0,
      Runs.Nobody)
    case OnMachine(xs) => GentleFrom(Trace(s.w, xs), 0, Runs.Nobody)
    case NewDaemon => true
  }

  ghost predicate GentleRun(s: Runs.Gated, run: seq<Runs.Event>) {
    forall i :: 0 <= i < |run| ==> GentleEvent(Runs.After(s, run[..i]), run[i])
  }

  lemma TurnTold(b: Ledger, w: World, g: Option<Settings>, closed: bool, sc: Script)
    requires Distinct(w.ls) && Told(w, Runs.Nobody) && GentleFrom(Turn(b, w, g, closed, sc).1.trace, 0, Runs.Nobody)
    ensures Told(Turn(b, w, g, closed, sc).1.w, Runs.Nobody)
  {
    hide Turn;
    var m := Turn(b, w, g, closed, sc).1;
    forall p ensures ToldOf(m.w, p, Runs.Nobody) {
      TurnLeads(b, w, g, closed, sc, p, Runs.Nobody, 0);
      hide *;
      ToldAll(w, Runs.Nobody, p);
      LeadsIs(Start(w), m, p, Runs.Nobody, 0);
    }
    ToldEach(m.w, Runs.Nobody);
  }

  lemma NextTold(s: Runs.Gated, e: Runs.Event)
    requires Distinct(s.w.ls) && Told(s.w, Runs.Nobody) && GentleEvent(s, e) && !Runs.LosesAt(s, e)
    ensures Told(Runs.Next(s, e).w, Runs.Nobody) && Runs.ToldEvent(s, e)
  {
    hide SuspendIdle;
    hide ResumeAll;
    hide HappenAll;
    hide Trace;
    hide Told;
    hide Distinct;
    hide GentleFrom;
    hide Runs.Loses;
    hide Runs.ToldTick;
    hide Sampled;
    hide ClosedAfter;
    match e
    case GateTicks(g, now, pct, sc) =>
      var closed := Runs.ClosedThen(s, g, now, pct);
      TurnTold(s.b, s.w, g, closed, sc);
      if g.Some? && closed && !sc.fails {
        GentleIsTold(Moved(s.b, true), s.w, g.value, sc);
      }
    case OnMachine(xs) => HappensTold(s.w, xs, Runs.Nobody);
    case NewDaemon =>
  }

  lemma OnceDistinct(b: Ledger, w: World, told: bool)
    requires Runs.BothOnce(b, w, told)
    ensures Distinct(w.ls)
  {
  }

  lemma {:induction false} RunKeepsTold(s: Runs.Gated, run: seq<Runs.Event>)
    requires Runs.Fresh(s) && Told(s.w, Runs.Nobody) && Runs.LosesNone(s, run) && GentleRun(s, run)
    ensures Runs.BothOnce(Runs.After(s, run).b, Runs.After(s, run).w, true) && Told(Runs.After(s, run).w, Runs.Nobody)
    decreases |run|
  {
    hide Runs.Next;
    hide Runs.LosesAt;
    hide GentleEvent;
    hide Told;
    if run == [] {
      Runs.FreshOnce(s, true);
    } else {
      var front := run[..|run| - 1];
      assert forall i :: 0 <= i <= |front| ==> front[..i] == run[..i];
      RunKeepsTold(s, front);
      var t := Runs.After(s, front);
      OnceDistinct(t.b, t.w, true);
      NextTold(t, run[|run| - 1]);
      Runs.NextKeeps(t, run[|run| - 1], true);
    }
  }

  /**
   * Over every run of ticks, restarts and listeners taking, running and finishing jobs, a suspended listener has no
   * job, as long as no tick loses whom it suspended and no step takes a job that no worker runs out of the log that is
   * read.
   */
  lemma SuspendedHaveNoJob(s: Runs.Gated, run: seq<Runs.Event>)
    requires Runs.Fresh(s) && Told(s.w, Runs.Nobody) && Runs.LosesNone(s, run) && GentleRun(s, run)
    ensures var t := Runs.After(s, run); forall l :: l in t.w.ls && l.stops > 0 ==> !l.job
  {
    hide Runs.After;
    hide GentleRun;
    hide Runs.LosesNone;
    RunKeepsTold(s, run);
    var t := Runs.After(s, run);
    forall l | l in t.w.ls && l.stops > 0 ensures !l.job { assert !Held([], l); }
  }
}
