/**
 * Why no listener stays stopped with a job (machine/benchRunners.ts, BenchRunners.step): listeners log their jobs, only
 * they write their logs, and a stopped one writes nothing; so as long as no job's line is taken out of reach, the
 * second look sees it.
 */
module RunnerTold {
  import opened Prelude
  import opened RunnerWorld
  import opened BenchRunners
  import opened RunnerRuns

  // ------------------------------------------------------------------ from one moment of a tick to a later one

  ghost predicate Sound(m: Moment, p: Pid, owns: nat -> bool) { Distinct(m.w.ls) && ToldOf(m.w, p, owns) }

  /**
   * The moment `m'` comes after `m`, and, all steps from the `k`-th on being gentle, the listener is told then if it
   * was.
   */
  ghost predicate Leads(m: Moment, m': Moment, p: Pid, owns: nat -> bool, k: nat) {
    m.trace <= m'.trace && (k <= |m.trace| && GentleFrom(m'.trace, k, owns) && Sound(m, p, owns) ==> Sound(m', p, owns))
  }

  lemma LeadsThen(m: Moment, m1: Moment, m2: Moment, p: Pid, owns: nat -> bool, k: nat)
    requires Leads(m, m1, p, owns, k) && Leads(m1, m2, p, owns, k)
    ensures Leads(m, m2, p, owns, k)
  {
    hide Sound;
    hide Gentle;
    GentleBefore(m1.trace, m2.trace, k, owns);
  }

  lemma GentleBefore(trace: seq<Happened>, more: seq<Happened>, k: nat, owns: nat -> bool)
    requires trace <= more
    ensures GentleFrom(more, k, owns) ==> GentleFrom(trace, k, owns)
  {
    hide Gentle;
  }

  lemma MeanwhileLeads(m: Moment, sc: Script, p: Pid, owns: nat -> bool, k: nat)
    ensures Leads(m, Meanwhile(m, sc), p, owns, k)
  {
    hide HappenAll;
    hide Trace;
    hide Gentle;
    hide ToldOf;
    hide Distinct;
    var m', t := Meanwhile(m, sc), Trace(m.w, sc.env(m.c));
    if k <= |m.trace| && GentleFrom(m'.trace, k, owns) && Sound(m, p, owns) {
      forall i | 0 <= i < |t| ensures Gentle(t[i], owns) {
        assert m'.trace[|m.trace| + i] == t[i];
      }
      HappenAllTold(m.w, sc.env(m.c), p, owns);
    }
  }

  lemma SignalLeads(m: Moment, v: World, p: Pid, owns: nat -> bool, k: nat)
    requires SameBut(m.w, v)
    ensures Leads(m, m.(w := v), p, owns, k)
  {
    if Sound(m, p, owns) {
      SignalTold(m.w, v, p, owns);
    }
  }

  lemma StopsAreSignals(w: World, q: Pid, n: nat)
    ensures SameBut(w, SetStops(w, q, n))
  {
    hide SetStops;
  }

  lemma Stay(m: Moment, p: Pid, owns: nat -> bool, k: nat)
    ensures Leads(m, m, p, owns, k)
  {
  }

  lemma StopOneLeads(m: Moment, l: Listener, kept: seq<Paused>, own: Option<nat>, sc: Script, p: Pid, owns: nat -> bool,
                     k: nat)
    ensures Leads(m, StopOne(m, l, kept, own, sc).0, p, owns, k)
  {
    hide Leads;
    hide SetStops;
    hide SameBut;
    hide LogOf;
    hide HappenAll;
    hide Trace;
    var m1 := Meanwhile(m, sc);
    var m2 := Meanwhile(m1, sc);
    Stay(m, p, owns, k);
    MeanwhileLeads(m, sc, p, owns, k);
    MeanwhileLeads(m1, sc, p, owns, k);
    LeadsThen(m, m1, m2, p, owns, k);
    StopsAreSignals(m2.w, l.pid, 1);
    SignalLeads(m2, SetStops(m2.w, l.pid, 1), p, owns, k);
    LeadsThen(m, m2, m2.(w := SetStops(m2.w, l.pid, 1)), p, owns, k);
  }

  lemma {:induction false} StopAllLeads(m: Moment, ls: seq<Listener>, kept: seq<Paused>, own: Option<nat>, sc: Script,
                                        p: Pid,
                                        owns: nat -> bool, k: nat)
    ensures Leads(m, StopAll(m, ls, kept, own, sc).0, p, owns, k)
    decreases |ls|
  {
    hide Leads;
    hide StopOne;
    if ls == [] {
      Stay(m, p, owns, k);
    } else {
      var m1 := StopAll(m, ls[..|ls| - 1], kept, own, sc).0;
      StopAllLeads(m, ls[..|ls| - 1], kept, own, sc, p, owns, k);
      StopOneLeads(m1, ls[|ls| - 1], kept, own, sc, p, owns, k);
      LeadsThen(m, m1, StopAll(m, ls, kept, own, sc).0, p, owns, k);
    }
  }

  lemma CheckOneLeads(m: Moment, h: Halted, again: seq<Listener>, own: Option<nat>, sc: Script, p: Pid,
                      owns: nat -> bool, k: nat)
    ensures Leads(m, CheckOne(m, h, again, own, sc).0, p, owns, k)
    ensures CheckOne(m, h, again, own, sc).0.trace == Meanwhile(m, sc).trace
  {
    hide Leads;
    hide SetStops;
    hide SameBut;
    hide LogOf;
    hide HappenAll;
    hide Trace;
    var m1 := Meanwhile(m, sc);
    MeanwhileLeads(m, sc, p, owns, k);
    StopsAreSignals(m1.w, h.pid, 0);
    SignalLeads(m1, SetStops(m1.w, h.pid, 0), p, owns, k);
    LeadsThen(m, m1, m1.(w := SetStops(m1.w, h.pid, 0)), p, owns, k);
  }

  lemma CheckStep(m: Moment, hs: seq<Halted>, n: nat, again: seq<Listener>, own: Option<nat>, sc: Script)
    requires 0 < n <= |hs|
    ensures CheckAll(m, hs[..n], again, own, sc).0 ==
            CheckOne(CheckAll(m, hs[..n - 1], again, own, sc).0, hs[n - 1], again, own, sc).0
  {
    hide CheckOne;
    assert hs[..n][..n - 1] == hs[..n - 1];
  }

  /** From the second looks at `hs[..j]` to those at `hs[..n]`. */
  lemma {:induction false} CheckAllLeads(m: Moment, hs: seq<Halted>, j: nat, n: nat, again: seq<Listener>,
                                         own: Option<nat>, sc: Script,
                                         p: Pid, owns: nat -> bool, k: nat)
    requires j <= n <= |hs|
    ensures Leads(CheckAll(m, hs[..j], again, own, sc).0, CheckAll(m, hs[..n], again, own, sc).0, p, owns, k)
    decreases n
  {
    hide *;
    var mj := CheckAll(m, hs[..j], again, own, sc).0;
    if j == n {
      Stay(mj, p, owns, k);
    } else {
      CheckStep(m, hs, n, again, own, sc);
      var m1 := CheckAll(m, hs[..n - 1], again, own, sc).0;
      CheckAllLeads(m, hs, j, n - 1, again, own, sc, p, owns, k);
      CheckOneLeads(m1, hs[n - 1], again, own, sc, p, owns, k);
      LeadsThen(mj, m1, CheckAll(m, hs[..n], again, own, sc).0, p, owns, k);
    }
  }

  lemma {:induction false} ContinueAllLeads(m: Moment, paused: seq<Paused>, ls: seq<Listener>, sc: Script, p: Pid,
                                            owns: nat -> bool, k: nat)
    ensures Leads(m, ContinueAll(m, paused, ls, sc), p, owns, k)
    decreases |paused|
  {
    hide Leads;
    hide SetStops;
    hide HappenAll;
    hide Trace;
    if paused == [] {
      Stay(m, p, owns, k);
    } else {
      var m1, q := ContinueAll(m, paused[..|paused| - 1], ls, sc), paused[|paused| - 1];
      ContinueAllLeads(m, paused[..|paused| - 1], ls, sc, p, owns, k);
      var m2 := Meanwhile(m1, sc);
      MeanwhileLeads(m1, sc, p, owns, k);
      LeadsThen(m, m1, m2, p, owns, k);
      StopsAreSignals(m2.w, q.pid, 0);
      SignalLeads(m2, SetStops(m2.w, q.pid, 0), p, owns, k);
      LeadsThen(m, m2, m2.(w := SetStops(m2.w, q.pid, 0)), p, owns, k);
    }
  }

  // ------------------------------------------------------------------ a tick

  lemma FirstLookLeads(paused: seq<Paused>, w: World, sc: Script, p: Pid, owns: nat -> bool, k: nat)
    ensures var f, m := FirstLook(paused, w, sc), Listing(w, sc);
            && Leads(Start(w), m, p, owns, k) && Leads(m, f.m, p, owns, k) && Leads(f.m, Meanwhile(f.m, sc), p, owns, k)
            && Leads(m, Meanwhile(f.m, sc), p, owns, k)
  {
    hide Leads;
    hide StopAll;
    hide Keep;
    hide HappenAll;
    hide Trace;
    var f, m := FirstLook(paused, w, sc), Listing(w, sc);
    MeanwhileLeads(Start(w), sc, p, owns, k);
    StopAllLeads(m, m.w.ls, Keep(paused, m.w.ls), sc.own, sc, p, owns, k);
    MeanwhileLeads(f.m, sc, p, owns, k);
    LeadsThen(m, f.m, Meanwhile(f.m, sc), p, owns, k);
  }

  lemma SecondLooksLead(paused: seq<Paused>, w: World, sc: Script, p: Pid, owns: nat -> bool, k: nat)
    ensures Leads(Meanwhile(FirstLook(paused, w, sc).m, sc), SecondLooks(paused, w, sc).0, p, owns, k)
  {
    hide Leads;
    hide CheckAll;
    hide FirstLook;
    hide SecondListing;
    hide HappenAll;
    hide Trace;
    var f := FirstLook(paused, w, sc);
    var m2, again := Meanwhile(f.m, sc), SecondListing(paused, w, sc);
    CheckAllLeads(m2, f.hs, 0, |f.hs|, again, sc.ownAgain, sc, p, owns, k);
    NoneChecked(m2, f.hs, again, sc.ownAgain, sc);
    assert f.hs[..|f.hs|] == f.hs;
  }

  lemma NoneChecked(m: Moment, hs: seq<Halted>, again: seq<Listener>, own: Option<nat>, sc: Script)
    ensures CheckAll(m, hs[..0], again, own, sc) == (m, [])
  {
  }

  lemma HeldTickLeads(b: Books, w: World, ticket: nat, sc: Script, p: Pid, owns: nat -> bool, k: nat)
    ensures Leads(Listing(w, sc), HeldTick(b, w, ticket, sc).1, p, owns, k)
    ensures Leads(Start(w), HeldTick(b, w, ticket, sc).1, p, owns, k)
  {
    hide Leads;
    hide FirstLook;
    hide SecondLooks;
    hide SecondListing;
    hide Closing;
    hide HappenAll;
    hide Trace;
    var m, f := Listing(w, sc), FirstLook(b.st.paused, w, sc);
    FirstLookLeads(b.st.paused, w, sc, p, owns, k);
    SecondLooksLead(b.st.paused, w, sc, p, owns, k);
    Stay(m, p, owns, k);
    LeadsThen(m, Meanwhile(f.m, sc), SecondLooks(b.st.paused, w, sc).0, p, owns, k);
    LeadsThen(Start(w), m, HeldTick(b, w, ticket, sc).1, p, owns, k);
  }

  lemma FreeTickLeads(b: Books, w: World, sc: Script, p: Pid, owns: nat -> bool, k: nat)
    ensures Leads(Start(w), FreeTick(b, w, sc).1, p, owns, k)
  {
    hide Leads;
    hide ContinueAll;
    hide HappenAll;
    hide Trace;
    var m := Listing(w, sc);
    Stay(Start(w), p, owns, k);
    MeanwhileLeads(Start(w), sc, p, owns, k);
    ContinueAllLeads(m, b.st.paused, m.w.ls, sc, p, owns, k);
    LeadsThen(Start(w), m, ContinueAll(m, b.st.paused, m.w.ls, sc), p, owns, k);
  }

  lemma {:induction false} HaltedListed(m: Moment, ls: seq<Listener>, kept: seq<Paused>, own: Option<nat>, sc: Script,
                                        k: nat) returns (i: nat)
    requires k < |StopAll(m, ls, kept, own, sc).1|
    ensures i < |ls| && ls[i].pid == StopAll(m, ls, kept, own, sc).1[k].pid && !Busy(ls[i], own)
    decreases |ls|
  {
    hide HappenAll;
    hide SetStops;
    hide LogOf;
    var before := StopAll(m, ls[..|ls| - 1], kept, own, sc).1;
    if k < |before| {
      i := HaltedListed(m, ls[..|ls| - 1], kept, own, sc, k);
    } else {
      i := |ls| - 1;
    }
  }

  /** A listener without a worker the first listing shows is told by its log alone, if unseen jobs show. */
  lemma ListedIsTold(w: World, i: nat, own: Option<nat>, owns: nat -> bool)
    requires Distinct(w.ls) && i < |w.ls| && !Busy(w.ls[i], own) && ToldOf(w, w.ls[i].pid, owns) &&
      (own.Some? ==> owns(own.value))
    ensures ToldOf(w, w.ls[i].pid, Any)
  {
    hide Shows;
    forall j | 0 <= j < |w.ls| && w.ls[j].pid == w.ls[i].pid && Unseen(w.ls[j], Any) ensures Shows(w, w.ls[j]) {
      assert j == i;
    }
  }

  /**
   * What is asked of the machine during a tick: no step takes a job no listing shows a worker for out of sight, and
   * from the first listing on, whose workers the daemon does not see start, none takes any job out of sight.
   */
  ghost predicate GentleTick(m: Moment, w: World, sc: Script, owns: nat -> bool) {
    && GentleFrom(m.trace, 0, owns) && GentleFrom(m.trace, |Listing(w, sc).trace|, Any)
    && (sc.own.Some? ==> owns(sc.own.value))
  }

  /** Then the second looks find every listener told: by the log alone, whatever the second listing shows. */
  lemma GentleIsTold(b: Books, w: World, ticket: nat, sc: Script, owns: nat -> bool)
    requires Distinct(w.ls) && Told(w, owns) && !sc.fails && !Loses(b, w, sc)
    requires GentleTick(HeldTick(b, w, ticket, sc).1, w, sc, owns)
    ensures ToldTick(b, w, sc)
  {
    hide Leads;
    hide CheckAll;
    hide StopAll;
    hide SecondListing;
    hide Closing;
    hide HappenAll;
    hide Trace;
    hide Keep;
    hide ToldOf;
    hide Told;
    hide Distinct;
    hide GentleFrom;
    var f := FirstLook(b.st.paused, w, sc);
    var m2, again, own := Meanwhile(f.m, sc), SecondListing(b.st.paused, w, sc), sc.ownAgain;
    forall k | 0 <= k < |f.hs|
      ensures ToldOf(Meanwhile(CheckAll(m2, f.hs[..k], again, own, sc).0, sc).w, f.hs[k].pid, Any) {
      ToldAt(b, w, ticket, sc, owns, k);
    }
  }

  lemma ToldAt(b: Books, w: World, ticket: nat, sc: Script, owns: nat -> bool, k: nat)
    requires Distinct(w.ls) && Told(w, owns) && !sc.fails && !sc.failsAgain
    requires k < |FirstLook(b.st.paused, w, sc).hs|
    requires GentleTick(HeldTick(b, w, ticket, sc).1, w, sc, owns)
    ensures var f := FirstLook(b.st.paused, w, sc);
            var mk := CheckAll(Meanwhile(f.m, sc), f.hs[..k], SecondListing(b.st.paused, w, sc), sc.ownAgain, sc).0;
            ToldOf(Meanwhile(mk, sc).w, f.hs[k].pid, Any)
  {
    hide *;
    var f := FirstLook(b.st.paused, w, sc);
    var m, m2, again, own := Listing(w, sc), Meanwhile(f.m, sc), SecondListing(b.st.paused, w, sc), sc.ownAgain;
    var p := f.hs[k].pid;
    var mk := CheckAll(m2, f.hs[..k], again, own, sc).0;
    var end := HeldTick(b, w, ticket, sc).1;
    ListingTold(b, w, ticket, sc, owns, k);
    var from := |m.trace|;
    FirstLookLeads(b.st.paused, w, sc, p, Any, from);
    NoneChecked(m2, f.hs, again, own, sc);
    CheckAllLeads(m2, f.hs, 0, k, again, own, sc, p, Any, from);
    LeadsThen(m, m2, mk, p, Any, from);
    MeanwhileLeads(mk, sc, p, Any, from);
    LeadsThen(m, mk, Meanwhile(mk, sc), p, Any, from);
    LooksAreWithin(b, w, ticket, sc, k);
    GentleParts(end, w, sc, owns);
    GentleBefore(Meanwhile(mk, sc).trace, end.trace, from, Any);
    LeadsIs(m, Meanwhile(mk, sc), p, Any, from);
  }

  lemma GentleParts(m: Moment, w: World, sc: Script, owns: nat -> bool)
    requires GentleTick(m, w, sc, owns)
    ensures GentleFrom(m.trace, 0, owns) && GentleFrom(m.trace, |Listing(w, sc).trace|, Any) &&
      (sc.own.Some? ==> owns(sc.own.value))
  {
    hide GentleFrom;
    hide HappenAll;
  }

  lemma LeadsIs(m: Moment, m': Moment, p: Pid, owns: nat -> bool, k: nat)
    requires Leads(m, m', p, owns, k) && k <= |m.trace| && GentleFrom(m'.trace, k, owns) && Distinct(m.w.ls) &&
      ToldOf(m.w, p, owns)
    ensures Distinct(m'.w.ls) && ToldOf(m'.w, p, owns)
  {
    hide GentleFrom;
    hide Distinct;
    hide ToldOf;
  }

  lemma LooksAreWithin(b: Books, w: World, ticket: nat, sc: Script, k: nat)
    requires !sc.fails && !sc.failsAgain && k < |FirstLook(b.st.paused, w, sc).hs|
    ensures var f := FirstLook(b.st.paused, w, sc);
            var mk := CheckAll(Meanwhile(f.m, sc), f.hs[..k], SecondListing(b.st.paused, w, sc), sc.ownAgain, sc).0;
            Meanwhile(mk, sc).trace <= HeldTick(b, w, ticket, sc).1.trace
  {
    hide FirstLook;
    hide SecondListing;
    hide Closing;
    hide HappenAll;
    hide Trace;
    hide CheckOne;
    var f := FirstLook(b.st.paused, w, sc);
    var m2, again, own := Meanwhile(f.m, sc), SecondListing(b.st.paused, w, sc), sc.ownAgain;
    var mk := CheckAll(m2, f.hs[..k], again, own, sc).0;
    assert f.hs[..k + 1][..k] == f.hs[..k] && f.hs[..|f.hs|] == f.hs;
    CheckOneLeads(mk, f.hs[k], again, own, sc, 0, Any, 0);
    CheckAllLeads(m2, f.hs, k + 1, |f.hs|, again, own, sc, 0, Any, 0);
  }

  lemma ListingTold(b: Books, w: World, ticket: nat, sc: Script, owns: nat -> bool, k: nat)
    requires Distinct(w.ls) && Told(w, owns) && k < |FirstLook(b.st.paused, w, sc).hs|
    requires GentleTick(HeldTick(b, w, ticket, sc).1, w, sc, owns)
    ensures Distinct(Listing(w, sc).w.ls) && ToldOf(Listing(w, sc).w, FirstLook(b.st.paused, w, sc).hs[k].pid, Any)
  {
    var m, f, end := Listing(w, sc), FirstLook(b.st.paused, w, sc), HeldTick(b, w, ticket, sc).1;
    var p := f.hs[k].pid;
    var i := HaltedListed(m, m.w.ls, f.kept, sc.own, sc, k);
    assert ToldOf(w, p, owns);
    hide *;
    FirstLookLeads(b.st.paused, w, sc, p, owns, 0);
    HeldTickLeads(b, w, ticket, sc, p, owns, 0);
    GentleParts(end, w, sc, owns);
    LeadsOn(m, end, p, owns, 0);
    GentleBefore(m.trace, end.trace, 0, owns);
    LeadsIs(Start(w), m, p, owns, 0);
    ListedIsTold(m.w, i, sc.own, owns);
  }

  lemma LeadsOn(m: Moment, m': Moment, p: Pid, owns: nat -> bool, k: nat)
    requires Leads(m, m', p, owns, k)
    ensures m.trace <= m'.trace
  {
    hide GentleFrom;
    hide Sound;
  }

  // ------------------------------------------------------------------ runs

  /** What is asked of the machine over a run. */
  ghost predicate GentleEvent(s: System, e: Event, owns: nat -> bool) {
    match e
    case Ticks(holder, sc) =>
      var m := Tick(s.b, s.w, holder, sc).1;
      if holder.Some? then GentleTick(m, s.w, sc, owns) else GentleFrom(m.trace, 0, owns)
    case Machine(xs) => GentleFrom(Trace(s.w, xs), 0, owns)
    case Restart => true
  }

  ghost predicate GentleRun(s: System, run: seq<Event>, owns: nat -> bool) {
    forall i :: 0 <= i < |run| ==> GentleEvent(After(s, run[..i]), run[i], owns)
  }

  lemma ToldEach(w: World, owns: nat -> bool)
    requires forall p :: ToldOf(w, p, owns)
    ensures Told(w, owns)
  {
    hide Shows;
    forall i | 0 <= i < |w.ls| && Unseen(w.ls[i], owns) ensures Shows(w, w.ls[i]) {
      assert ToldOf(w, w.ls[i].pid, owns);
    }
  }

  lemma ToldAll(w: World, owns: nat -> bool, p: Pid)
    requires Told(w, owns)
    ensures ToldOf(w, p, owns)
  {
    hide Shows;
  }

  lemma TickTold(b: Books, w: World, holder: Option<nat>, sc: Script, owns: nat -> bool)
    requires Distinct(w.ls) && Told(w, owns) && GentleFrom(Tick(b, w, holder, sc).1.trace, 0, owns)
    ensures Told(Tick(b, w, holder, sc).1.w, owns)
  {
    var m := Tick(b, w, holder, sc).1;
    hide HeldTick;
    hide FreeTick;
    forall p ensures ToldOf(m.w, p, owns) {
      if holder.Some? {
        HeldTickLeads(b, w, holder.value, sc, p, owns, 0);
      } else {
        FreeTickLeads(b, w, sc, p, owns, 0);
      }
      hide *;
      ToldAll(w, owns, p);
      LeadsIs(Start(w), m, p, owns, 0);
    }
    ToldEach(m.w, owns);
  }

  lemma HappensTold(w: World, xs: seq<Env>, owns: nat -> bool)
    requires Distinct(w.ls) && Told(w, owns) && GentleFrom(Trace(w, xs), 0, owns)
    ensures Told(HappenAll(w, xs), owns)
  {
    hide HappenAll;
    hide Trace;
    hide Gentle;
    hide Shows;
    hide Distinct;
    forall p ensures ToldOf(HappenAll(w, xs), p, owns) {
      HappenAllTold(w, xs, p, owns);
    }
    ToldEach(HappenAll(w, xs), owns);
  }

  lemma GoodDistinct(b: Books, w: World, told: bool)
    requires BothGood(b, w, told)
    ensures Distinct(w.ls)
  {
  }

  lemma NextTold(s: System, e: Event, owns: nat -> bool)
    requires Distinct(s.w.ls) && Told(s.w, owns) && GentleEvent(s, e, owns)
    requires e.Ticks? && e.holder.Some? ==> !Loses(s.b, s.w, e.sc)
    ensures Told(Next(s, e).w, owns) && ToldEvent(s, e)
  {
    hide HeldTick;
    hide FreeTick;
    hide HappenAll;
    hide Trace;
    hide Told;
    hide Distinct;
    hide GentleFrom;
    hide Loses;
    hide ToldTick;
    match e
    case Ticks(holder, sc) =>
      TickTold(s.b, s.w, holder, sc, owns);
      if holder.Some? && !sc.fails {
        GentleIsTold(s.b, s.w, holder.value, sc, owns);
      }
    case Machine(xs) => HappensTold(s.w, xs, owns);
    case Restart =>
  }

  lemma {:induction false} RunKeepsTold(s: System, run: seq<Event>, owns: nat -> bool)
    requires Fresh(s) && Told(s.w, owns) && LosesNone(s, run) && GentleRun(s, run, owns)
    ensures BothGood(After(s, run).b, After(s, run).w, true) && Told(After(s, run).w, owns)
    decreases |run|
  {
    hide Next;
    hide Loses;
    hide GentleEvent;
    hide Told;
    if run != [] {
      var front := run[..|run| - 1];
      assert forall i :: 0 <= i <= |front| ==> front[..i] == run[..i];
      RunKeepsTold(s, front, owns);
      var t := After(s, front);
      GoodDistinct(t.b, t.w, true);
      NextTold(t, run[|run| - 1], owns);
      NextKeeps(t, run[|run| - 1], true);
    }
  }

  /**
   * Over every run of ticks, daemon restarts and listeners taking, running and finishing jobs, a listener the daemon
   * has stopped has no job, as long as no tick loses whom it stopped and no step takes a job out of sight: one whose
   * line leaves the 64 KB that are read while no worker runs it, or one that may be a timed run's own, or while a tick
   * goes on.
   */
  lemma StoppedHaveNoJob(s: System, run: seq<Event>, owns: nat -> bool)
    requires Fresh(s) && Told(s.w, owns) && LosesNone(s, run) && GentleRun(s, run, owns)
    ensures var t := After(s, run); forall l :: l in t.w.ls && l.stops > 0 ==> !l.job
  {
    hide After;
    hide GentleRun;
    hide LosesNone;
    RunKeepsTold(s, run, owns);
    var t := After(s, run);
    forall l | l in t.w.ls && l.stops > 0 ensures !l.job { assert !Held([], l); }
  }
}
