/**
 * Runs of the pause of CI runners (machine/benchRunners.ts): what every tick keeps, whatever listeners do meanwhile,
 * and over runs of ticks, daemon restarts and the machine.
 */
module RunnerRuns {
  import opened Prelude
  import opened RunnerWorld
  import opened BenchRunners

  // ------------------------------------------------------------------ what a tick keeps

  ghost predicate Recorded(paused: seq<Paused>, l: Listener) { Paused(l.pid, l.root) in paused }

  ghost predicate Held(hs: seq<Halted>, l: Listener) {
    exists i :: 0 <= i < |hs| && hs[i].pid == l.pid && hs[i].root == l.root
  }

  /** A stopped listener is recorded, and without a job if jobs are `told`, or still to be looked at again. */
  ghost predicate Accounted(w: World, paused: seq<Paused>, hs: seq<Halted>, told: bool) {
    forall l :: l in w.ls && l.stops > 0 ==> (Recorded(paused, l) && (told ==> !l.job)) || Held(hs, l)
  }

  /** Listeners stopped in this tick were listed under the runner they belong to. */
  ghost predicate AtHome(w: World, hs: seq<Halted>) {
    forall i :: 0 <= i < |hs| ==> hs[i].pid in w.home && w.home[hs[i].pid] == hs[i].root
  }

  ghost predicate Good(w: World, paused: seq<Paused>, hs: seq<Halted>, told: bool) {
    Real(w) && Accounted(w, paused, hs, told) && AtHome(w, hs)
  }

  lemma AccountedStill(w: World, v: World, paused: seq<Paused>, hs: seq<Halted>, told: bool)
    requires Accounted(w, paused, hs, told) && Still(w, v)
    ensures Accounted(v, paused, hs, told)
  {
    forall l | l in v.ls && l.stops > 0 ensures (Recorded(paused, l) && (told ==> !l.job)) || Held(hs, l) {
      var i :| 0 <= i < |w.ls| && Was(w.ls[i], l);
      var m := w.ls[i];
      assert m in w.ls;
      if Held(hs, m) {
        var j :| 0 <= j < |hs| && hs[j].pid == m.pid && hs[j].root == m.root;
        assert hs[j].pid == l.pid && hs[j].root == l.root;
      }
    }
  }

  lemma MeanwhileGood(m: Moment, sc: Script, paused: seq<Paused>, hs: seq<Halted>, told: bool)
    requires Good(m.w, paused, hs, told)
    ensures Good(Meanwhile(m, sc).w, paused, hs, told) && Still(m.w, Meanwhile(m, sc).w)
    ensures forall p :: p in m.w.home ==> p in Meanwhile(m, sc).w.home && Meanwhile(m, sc).w.home[p] == m.w.home[p]
  {
    hide HappenAll;
    HappenAllStill(m.w, sc.env(m.c));
    AccountedStill(m.w, Meanwhile(m, sc).w, paused, hs, told);
  }

  lemma StopGood(w: World, paused: seq<Paused>, hs: seq<Halted>, h: Halted, told: bool)
    requires Good(w, paused, hs, told) && h.pid in w.home && w.home[h.pid] == h.root
    ensures Good(SetStops(w, h.pid, 1), paused, hs + [h], told)
  {
    hide SetStops;
    var v, more := SetStops(w, h.pid, 1), hs + [h];
    SetStopsReal(w, h.pid, 1);
    assert more[|hs|] == h;
    forall l | l in v.ls && l.stops > 0 ensures (Recorded(paused, l) && (told ==> !l.job)) || Held(more, l) {
      var i :| 0 <= i < |v.ls| && v.ls[i] == l;
      assert w.ls[i] in w.ls;
      if l.pid == h.pid {
        assert w.home[l.pid] == l.root;
      } else if Held(hs, l) {
        var j :| 0 <= j < |hs| && hs[j].pid == l.pid && hs[j].root == l.root;
        assert more[j] == hs[j];
      }
    }
  }

  /** The homes the daemon saw stay. */
  ghost predicate Homes(w: World, v: World) {
    forall p :: p in w.home ==> p in v.home && v.home[p] == w.home[p]
  }

  /** The record is of whom: those the daemon keeps, or those its file says. */
  lemma StopOneGood(m: Moment, l: Listener, kept: seq<Paused>, own: Option<nat>, sc: Script, rec: seq<Paused>,
                    hs: seq<Halted>, told: bool)
    requires Good(m.w, rec, hs, told) && l.pid in m.w.home && m.w.home[l.pid] == l.root
    ensures var (m', h) := StopOne(m, l, kept, own, sc); Good(m'.w, rec, hs + h, told) && Homes(m.w, m'.w)
  {
    hide SetStops;
    hide HappenAll;
    assert hs + [] == hs;
    if !(PidIn(kept, l.pid) || Busy(l, own)) {
      var m1 := Meanwhile(m, sc);
      MeanwhileGood(m, sc, rec, hs, told);
      var log := LogOf(m1.w, l.root);
      if !HoldsJob(log, sc.now(m1.c)) {
        MeanwhileGood(m1, sc, rec, hs, told);
        StopGood(Meanwhile(m1, sc).w, rec, hs, Halted(l.pid, l.root, log), told);
      }
    }
  }

  lemma {:induction false} StopAllGood(m: Moment, ls: seq<Listener>, kept: seq<Paused>, own: Option<nat>, sc: Script,
                                       rec: seq<Paused>,
                                       told: bool)
    requires Good(m.w, rec, [], told)
    requires forall i :: 0 <= i < |ls| ==> ls[i].pid in m.w.home && m.w.home[ls[i].pid] == ls[i].root
    ensures var (m', hs) := StopAll(m, ls, kept, own, sc); Good(m'.w, rec, hs, told) && Homes(m.w, m'.w)
    decreases |ls|
  {
    hide StopOne;
    if ls != [] {
      StopAllGood(m, ls[..|ls| - 1], kept, own, sc, rec, told);
      var (m1, hs) := StopAll(m, ls[..|ls| - 1], kept, own, sc);
      StopOneGood(m1, ls[|ls| - 1], kept, own, sc, rec, hs, told);
    }
  }

  /** A job that shows is not idle by its log. */
  lemma IdleHasNoJob(w: World, l: Listener)
    requires l in w.ls && ToldOf(w, l.pid, Any) && LogOf(w, l.root).state == IsIdle
    ensures !l.job
  {
    var i :| 0 <= i < |w.ls| && w.ls[i] == l;
    assert Unseen(l, Any) == l.job;
  }

  lemma CheckOneGood(m: Moment, h: Halted, again: seq<Listener>, own: Option<nat>, sc: Script, rec: seq<Paused>,
                     hs: seq<Halted>, told: bool)
    requires Good(m.w, rec, [h] + hs, told)
    requires told ==> ToldOf(Meanwhile(m, sc).w, h.pid, Any)
    ensures var (m', p) := CheckOne(m, h, again, own, sc); Good(m'.w, rec + p, hs, told)
  {
    hide SetStops;
    hide HappenAll;
    hide ToldOf;
    hide LogOf;
    var all := [h] + hs;
    var m1 := Meanwhile(m, sc);
    MeanwhileGood(m, sc, rec, all, told);
    AtHomeRest(m1.w, h, hs);
    var (m', p) := CheckOne(m, h, again, own, sc);
    if p == [] {
      assert rec + p == rec;
      ContinueGood(m1.w, rec, h, hs, told);
    } else {
      forall l | l in m1.w.ls && l.stops > 0 ensures (Recorded(rec + p, l) && (told ==> !l.job)) || Held(hs, l) {
        if !(Recorded(rec, l) && (told ==> !l.job)) && !Held(hs, l) {
          HeldFirst(h, hs, l);
          if told {
            IdleHasNoJob(m1.w, l);
          }
        }
      }
    }
  }

  lemma HeldFirst(h: Halted, hs: seq<Halted>, l: Listener)
    requires Held([h] + hs, l)
    ensures Held(hs, l) || (h.pid == l.pid && h.root == l.root)
  {
    var i :| 0 <= i < |hs| + 1 && ([h] + hs)[i].pid == l.pid && ([h] + hs)[i].root == l.root;
    if i > 0 {
      assert hs[i - 1].pid == l.pid && hs[i - 1].root == l.root;
    }
  }

  lemma AtHomeRest(w: World, h: Halted, hs: seq<Halted>)
    requires AtHome(w, [h] + hs)
    ensures AtHome(w, hs)
  {
    forall i | 0 <= i < |hs| ensures hs[i].pid in w.home && w.home[hs[i].pid] == hs[i].root {
      assert ([h] + hs)[i + 1] == hs[i];
    }
  }

  /** Continuing a listener settles it. */
  lemma ContinueGood(w: World, paused: seq<Paused>, h: Halted, hs: seq<Halted>, told: bool)
    requires Good(w, paused, [h] + hs, told)
    ensures Good(SetStops(w, h.pid, 0), paused, hs, told)
  {
    hide SetStops;
    var v := SetStops(w, h.pid, 0);
    SetStopsReal(w, h.pid, 0);
    AtHomeRest(w, h, hs);
    forall l | l in v.ls && l.stops > 0 ensures (Recorded(paused, l) && (told ==> !l.job)) || Held(hs, l) {
      var i :| 0 <= i < |v.ls| && v.ls[i] == l;
      assert w.ls[i] == l && l in w.ls;
      if Held([h] + hs, l) {
        HeldFirst(h, hs, l);
      }
    }
  }

  lemma StillContinued(w2: World, w: World, pid: Pid)
    requires Still(w2, w)
    ensures Still(w2, SetStops(w, pid, 0))
  {
    hide SetStops;
    var v := SetStops(w, pid, 0);
    forall l | l in v.ls && l.stops > 0 ensures WasAmong(w2.ls, l) {
      var i :| 0 <= i < |v.ls| && v.ls[i] == l;
      assert w.ls[i] == l && l in w.ls;
    }
  }

  /** Each listener of the second look is told when its log is read again. */
  ghost predicate ToldAgain(m: Moment, hs: seq<Halted>, again: seq<Listener>, own: Option<nat>, sc: Script) {
    forall k :: 0 <= k < |hs| ==> ToldOf(Meanwhile(CheckAll(m, hs[..k], again, own, sc).0, sc).w, hs[k].pid, Any)
  }

  lemma {:induction false} CheckAllGood(m: Moment, hs: seq<Halted>, k: nat, again: seq<Listener>, own: Option<nat>,
                                        sc: Script,
                                        rec: seq<Paused>, told: bool)
    requires k <= |hs| && Good(m.w, rec, hs, told)
    requires told ==> ToldAgain(m, hs, again, own, sc)
    ensures var (m', ps) := CheckAll(m, hs[..k], again, own, sc); Good(m'.w, rec + ps, hs[k..], told)
  {
    hide CheckOne;
    hide HappenAll;
    hide ToldOf;
    if k == 0 {
      assert rec + [] == rec && hs[0..] == hs && hs[..0] == [];
    } else {
      CheckAllGood(m, hs, k - 1, again, own, sc, rec, told);
      assert hs[..k][..k - 1] == hs[..k - 1] && hs[k - 1..] == [hs[k - 1]] + hs[k..];
      var (m1, ps) := CheckAll(m, hs[..k - 1], again, own, sc);
      CheckOneGood(m1, hs[k - 1], again, own, sc, rec + ps, hs[k..], told);
      var (_, p) := CheckOne(m1, hs[k - 1], again, own, sc);
      assert rec + ps + p == rec + (ps + p);
    }
  }

  lemma {:induction false} KeepKeeps(paused: seq<Paused>, ls: seq<Listener>, p: Paused)
    requires p in paused && Find(ls, p.pid).Some?
    ensures p in Keep(paused, ls)
  {
    if p != paused[|paused| - 1] {
      KeepKeeps(paused[..|paused| - 1], ls, p);
    }
  }

  lemma KeepGood(w: World, paused: seq<Paused>, told: bool)
    requires Good(w, paused, [], told)
    ensures Good(w, Keep(paused, w.ls), [], told)
  {
    hide Keep;
    forall l | l in w.ls && l.stops > 0 ensures Recorded(Keep(paused, w.ls), l) && (told ==> !l.job) {
      assert !Held([], l);
      KeepKeeps(paused, w.ls, Paused(l.pid, l.root));
    }
  }

  /** The second looks of a tick under a timed run, if it comes to them, find each listener told. */
  ghost predicate ToldTick(b: Books, w: World, sc: Script) {
    var f := FirstLook(b.st.paused, w, sc);
    ToldAgain(Meanwhile(f.m, sc), f.hs, SecondListing(b.st.paused, w, sc), sc.ownAgain, sc)
  }

  /**
   * A tick that has stopped someone and then cannot list the processes again: it leaves them stopped, and unrecorded.
   */
  predicate Loses(b: Books, w: World, sc: Script) {
    !sc.fails && sc.failsAgain && FirstLook(b.st.paused, w, sc).hs != []
  }

  lemma FirstLookGood(paused: seq<Paused>, w: World, sc: Script, rec: seq<Paused>, told: bool)
    requires Good(w, rec, [], told)
    ensures var f := FirstLook(paused, w, sc);
            && Good(Listing(w, sc).w, rec, [], told) && Good(f.m.w, rec, f.hs, told)
            && Good(Meanwhile(f.m, sc).w, rec, f.hs, told)
  {
    hide HappenAll;
    hide Keep;
    hide StopAll;
    MeanwhileGood(Start(w), sc, rec, [], told);
    var m := Listing(w, sc);
    StopAllGood(m, m.w.ls, Keep(paused, m.w.ls), sc.own, sc, rec, told);
    var f := FirstLook(paused, w, sc);
    MeanwhileGood(f.m, sc, rec, f.hs, told);
  }

  lemma FirstLookKeeps(paused: seq<Paused>, w: World, sc: Script, told: bool)
    requires Good(w, paused, [], told)
    ensures var f := FirstLook(paused, w, sc);
            Good(f.m.w, f.kept, f.hs, told) && Good(Meanwhile(f.m, sc).w, f.kept, f.hs, told)
  {
    hide HappenAll;
    hide Keep;
    hide StopAll;
    MeanwhileGood(Start(w), sc, paused, [], told);
    var m := Listing(w, sc);
    KeepGood(m.w, paused, told);
    StopAllGood(m, m.w.ls, Keep(paused, m.w.ls), sc.own, sc, Keep(paused, m.w.ls), told);
    var f := FirstLook(paused, w, sc);
    MeanwhileGood(f.m, sc, f.kept, f.hs, told);
  }

  lemma SecondLooksGood(paused: seq<Paused>, w: World, sc: Script, rec: seq<Paused>, told: bool)
    requires var f := FirstLook(paused, w, sc);
             && Good(Meanwhile(f.m, sc).w, rec, f.hs, told)
             && (told ==> ToldAgain(Meanwhile(f.m, sc), f.hs, SecondListing(paused, w, sc), sc.ownAgain, sc))
    ensures var (m, ps) := SecondLooks(paused, w, sc); Good(m.w, rec + ps, [], told)
  {
    hide FirstLook;
    hide SecondListing;
    hide CheckAll;
    hide HappenAll;
    hide ToldAgain;
    hide Good;
    var f := FirstLook(paused, w, sc);
    CheckAllGood(Meanwhile(f.m, sc), f.hs, |f.hs|, SecondListing(paused, w, sc), sc.ownAgain, sc, rec, told);
    assert f.hs[..|f.hs|] == f.hs && f.hs[|f.hs|..] == [];
  }

  /** Stopped listeners are recorded, by the daemon and in its file. */
  ghost predicate BothGood(b: Books, w: World, told: bool) {
    Good(w, b.st.paused, [], told) && Good(w, b.file.paused, [], told)
  }

  /**
   * A tick under a timed run that loses nobody: whoever is stopped after it is recorded, by the daemon and in its file,
   * and has no job if those looked at again are told.
   */
  lemma HeldTickGood(b: Books, w: World, ticket: nat, sc: Script, told: bool)
    requires BothGood(b, w, told) && !Loses(b, w, sc) && (told && !sc.fails ==> ToldTick(b, w, sc))
    ensures var (b', m) := HeldTick(b, w, ticket, sc); BothGood(b', m.w, told)
  {
    hide HappenAll;
    hide FirstLook;
    hide SecondLooks;
    hide SecondListing;
    hide EndLeftovers;
    hide Good;
    hide ToldAgain;
    var f := FirstLook(b.st.paused, w, sc);
    FirstLookGood(b.st.paused, w, sc, b.st.paused, told);
    FirstLookGood(b.st.paused, w, sc, b.file.paused, told);
    FirstLookKeeps(b.st.paused, w, sc, told);
    if !sc.fails {
      if f.hs == [] {
        assert f.kept + [] == f.kept;
      } else {
        SecondLooksGood(b.st.paused, w, sc, f.kept, told);
        SecondLooksGood(b.st.paused, w, sc, b.file.paused, told);
        var ps := SecondLooks(b.st.paused, w, sc).1;
        assert ps == [] ==> b.file.paused + ps == b.file.paused;
      }
    }
  }

  // ------------------------------------------------------------------ a tick that loses whom it stopped

  lemma {:induction false} HaltedNotKept(m: Moment, ls: seq<Listener>, kept: seq<Paused>, own: Option<nat>, sc: Script)
    ensures forall k :: 0 <= k < |StopAll(m, ls, kept, own, sc).1| ==>
      !PidIn(kept, StopAll(m, ls, kept, own, sc).1[k].pid)
    decreases |ls|
  {
    hide HappenAll;
    hide SetStops;
    hide LogOf;
    if ls != [] {
      HaltedNotKept(m, ls[..|ls| - 1], kept, own, sc);
    }
  }

  /** A process of this pid stands stopped. */
  ghost predicate Stands(w: World, pid: Pid) { exists l :: l in w.ls && l.pid == pid && l.stops > 0 }

  /**
   * Exactly when a tick leaves everyone it knows to be stopped in the daemon's record: unless it could not list the
   * processes again and one of those it had just stopped is still there.
   */
  lemma RecordedIff(b: Books, w: World, ticket: nat, sc: Script)
    requires Good(w, b.st.paused, [], false)
    ensures var (b', m) := HeldTick(b, w, ticket, sc);
            var hs := FirstLook(b.st.paused, w, sc).hs;
            Accounted(m.w, b'.st.paused, [], false) <==>
              !(Loses(b, w, sc) && exists k :: 0 <= k < |hs| && Stands(m.w, hs[k].pid))
  {
    hide HappenAll;
    hide SecondLooks;
    hide SecondListing;
    hide EndLeftovers;
    hide StopAll;
    hide Keep;
    var f := FirstLook(b.st.paused, w, sc);
    FirstLookGood(b.st.paused, w, sc, b.st.paused, false);
    FirstLookKeeps(b.st.paused, w, sc, false);
    var listed := Listing(w, sc);
    HaltedNotKept(listed, listed.w.ls, f.kept, sc.own, sc);
    var (b', m) := HeldTick(b, w, ticket, sc);
    if Loses(b, w, sc) {
      LostIff(m.w, f.kept, f.hs);
    } else if !sc.fails {
      hide Good;
      if f.hs == [] {
        assert f.kept + [] == f.kept;
      } else {
        SecondLooksGood(b.st.paused, w, sc, f.kept, false);
      }
      GoodAccounts(m.w, b'.st.paused);
    }
  }

  lemma GoodAccounts(w: World, paused: seq<Paused>)
    requires Good(w, paused, [], false)
    ensures Accounted(w, paused, [], false)
  {
  }

  lemma LostIff(w: World, kept: seq<Paused>, hs: seq<Halted>)
    requires Accounted(w, kept, hs, false) && forall k :: 0 <= k < |hs| ==> !PidIn(kept, hs[k].pid)
    ensures Accounted(w, kept, [], false) <==> !exists k :: 0 <= k < |hs| && Stands(w, hs[k].pid)
  {
    forall l | l in w.ls && l.stops > 0 && Recorded(kept, l) ensures PidIn(kept, l.pid) {
      var i :| 0 <= i < |kept| && kept[i] == Paused(l.pid, l.root);
      assert kept[i].pid == l.pid;
    }
    if exists k :: 0 <= k < |hs| && Stands(w, hs[k].pid) {
      var k :| 0 <= k < |hs| && Stands(w, hs[k].pid);
      var l :| l in w.ls && l.pid == hs[k].pid && l.stops > 0;
      assert !Held([], l);
    }
  }

  /** No listener is stopped. */
  ghost predicate AllRun(w: World) { forall l :: l in w.ls ==> l.stops == 0 }

  /** A stopped listener is one of those recorded from `k` on. */
  ghost predicate ToContinue(w: World, paused: seq<Paused>, k: nat) {
    k <= |paused| && forall l :: l in w.ls && l.stops > 0 ==> Paused(l.pid, l.root) in paused[k..]
  }

  lemma ToContinueStill(w: World, v: World, paused: seq<Paused>, k: nat)
    requires ToContinue(w, paused, k) && Still(w, v)
    ensures ToContinue(v, paused, k)
  {
    forall l | l in v.ls && l.stops > 0 ensures Paused(l.pid, l.root) in paused[k..] {
      var i :| 0 <= i < |w.ls| && Was(w.ls[i], l);
      assert w.ls[i] in w.ls;
    }
  }

  lemma {:induction false} ContinueAllRuns(m: Moment, paused: seq<Paused>, k: nat, sc: Script)
    requires Real(m.w) && ToContinue(m.w, paused, 0) && k <= |paused|
    ensures var m' := ContinueAll(m, paused[..k], m.w.ls, sc);
            Real(m'.w) && Still(m.w, m'.w) && ToContinue(m'.w, paused, k)
  {
    hide SetStops;
    hide HappenAll;
    if k == 0 {
      StillSame(m.w, m.w);
      assert paused[..0] == [];
    } else {
      ContinueAllRuns(m, paused, k - 1, sc);
      assert paused[..k][..k - 1] == paused[..k - 1] && paused[k - 1..] == [paused[k - 1]] + paused[k..];
      var m1, p := ContinueAll(m, paused[..k - 1], m.w.ls, sc), paused[k - 1];
      var l := Find(m.w.ls, p.pid);
      if l.Some? && l.value.root == p.root {
        var m2 := Meanwhile(m1, sc);
        HappenAllStill(m1.w, sc.env(m1.c));
        StillThen(m.w, m1.w, m2.w);
        ToContinueStill(m1.w, m2.w, paused, k - 1);
        SetStopsReal(m2.w, p.pid, 0);
        StillContinued(m.w, m2.w, p.pid);
        OneContinued(m2.w, paused, k - 1);
      } else {
        NotListed(m.w, m1.w, paused, k - 1);
      }
    }
  }

  lemma OneContinued(w: World, paused: seq<Paused>, k: nat)
    requires k < |paused| && ToContinue(w, paused, k)
    ensures ToContinue(SetStops(w, paused[k].pid, 0), paused, k + 1)
  {
    hide SetStops;
    var v := SetStops(w, paused[k].pid, 0);
    assert paused[k..] == [paused[k]] + paused[k + 1..];
    forall l | l in v.ls && l.stops > 0 ensures Paused(l.pid, l.root) in paused[k + 1..] {
      var i :| 0 <= i < |v.ls| && v.ls[i] == l;
      assert w.ls[i] == l && l in w.ls;
    }
  }

  /** A record whose runner was not listed stands for no stopped listener. */
  lemma NotListed(w: World, v: World, paused: seq<Paused>, k: nat)
    requires Distinct(w.ls) && Still(w, v) && k < |paused| && ToContinue(v, paused, k)
    requires var l := Find(w.ls, paused[k].pid); l.None? || l.value.root != paused[k].root
    ensures ToContinue(v, paused, k + 1)
  {
    assert paused[k..] == [paused[k]] + paused[k + 1..];
    forall l | l in v.ls && l.stops > 0 ensures Paused(l.pid, l.root) in paused[k + 1..] {
      var i :| 0 <= i < |w.ls| && Was(w.ls[i], l);
      FindsIt(w.ls, i);
    }
  }

  /**
   * A tick without a timed run that can list the processes: every listener in the record runs again, and none is
   * recorded.
   */
  lemma FreeTickRuns(b: Books, w: World, sc: Script, told: bool)
    requires BothGood(b, w, told)
    ensures var (b', m) := FreeTick(b, w, sc);
            BothGood(b', m.w, told) && (!sc.fails || b.st == NONE ==> AllRun(m.w) && b'.st.paused == [])
  {
    hide HappenAll;
    hide ContinueAll;
    forall l | l in w.ls && l.stops > 0 ensures Recorded(b.st.paused, l) { assert !Held([], l); }
    if !(b.st.paused == [] && b.st.ticket.None?) {
      var m := Listing(w, sc);
      MeanwhileGood(Start(w), sc, b.st.paused, [], told);
      MeanwhileGood(Start(w), sc, b.file.paused, [], told);
      var all := b.st.paused;
      assert all[0..] == all && all[..|all|] == all && all[|all|..] == [];
      forall l | l in m.w.ls && l.stops > 0 ensures Recorded(all, l) { assert !Held([], l); }
      ContinueAllRuns(m, all, |all|, sc);
    }
  }

  // ------------------------------------------------------------------ runs of ticks, restarts and the machine

  datatype System = System(b: Books, w: World)

  datatype Event =
    | Ticks(holder: Option<nat>, sc: Script)
    | Machine(xs: seq<Env>)
    | Restart

  function Next(s: System, e: Event): System {
    match e
    case Ticks(holder, sc) => var (b, m) := Tick(s.b, s.w, holder, sc); System(b, m.w)
    case Machine(xs) => s.(w := HappenAll(s.w, xs))
    case Restart => s.(b := Books(s.b.file, s.b.file))
  }

  function After(s: System, run: seq<Event>): System
    decreases |run|
  {
    if run == [] then s else Next(After(s, run[..|run| - 1]), run[|run| - 1])
  }

  /** A daemon before its first tick, on a machine whose listeners all run. */
  ghost predicate Fresh(s: System) {
    s.b == Books(NONE, NONE) && Real(s.w) && AllRun(s.w)
  }

  /** No tick of the run loses whom it stopped. */
  ghost predicate LosesNone(s: System, run: seq<Event>) {
    forall i :: 0 <= i < |run| && run[i].Ticks? && run[i].holder.Some? ==>
      !Loses(After(s, run[..i]).b, After(s, run[..i]).w, run[i].sc)
  }

  ghost predicate ToldEvent(s: System, e: Event) {
    e.Ticks? && e.holder.Some? && !e.sc.fails ==> ToldTick(s.b, s.w, e.sc)
  }

  lemma NextKeeps(s: System, e: Event, told: bool)
    requires BothGood(s.b, s.w, told) && (told ==> ToldEvent(s, e))
    requires e.Ticks? && e.holder.Some? ==> !Loses(s.b, s.w, e.sc)
    ensures BothGood(Next(s, e).b, Next(s, e).w, told)
  {
    hide Good;
    hide HappenAll;
    hide HeldTick;
    hide FreeTick;
    hide FirstLook;
    match e
    case Ticks(holder, sc) =>
      if holder.Some? { HeldTickGood(s.b, s.w, holder.value, sc, told); } else { FreeTickRuns(s.b, s.w, sc, told); }
    case Machine(xs) =>
      HappensGood(s.w, xs, s.b.st.paused, told);
      HappensGood(s.w, xs, s.b.file.paused, told);
    case Restart =>
  }

  lemma HappensGood(w: World, xs: seq<Env>, paused: seq<Paused>, told: bool)
    requires Good(w, paused, [], told)
    ensures Good(HappenAll(w, xs), paused, [], told)
  {
    hide HappenAll;
    HappenAllStill(w, xs);
    AccountedStill(w, HappenAll(w, xs), paused, [], told);
  }

  lemma {:induction false} RunKeeps(s: System, run: seq<Event>)
    requires Fresh(s) && LosesNone(s, run)
    ensures BothGood(After(s, run).b, After(s, run).w, false)
    decreases |run|
  {
    hide Next;
    hide Loses;
    if run != [] {
      var front := run[..|run| - 1];
      assert forall i :: 0 <= i <= |front| ==> front[..i] == run[..i];
      RunKeeps(s, front);
      NextKeeps(After(s, front), run[|run| - 1], false);
    }
  }

  /**
   * Over every run of ticks, daemon restarts and listeners taking, running and finishing jobs in which no tick loses
   * whom it stopped: whenever the daemon is not in a tick, a listener it has stopped is recorded by the daemon and by
   * the file it would restart from.
   */
  lemma StoppedAreRecorded(s: System, run: seq<Event>)
    requires Fresh(s) && LosesNone(s, run)
    ensures var t := After(s, run);
            forall l :: l in t.w.ls && l.stops > 0 ==> Recorded(t.b.st.paused, l) && Recorded(t.b.file.paused, l)
  {
    hide After;
    RunKeeps(s, run);
    var t := After(s, run);
    forall l | l in t.w.ls && l.stops > 0
      ensures Recorded(t.b.st.paused, l) && Recorded(t.b.file.paused, l) { assert !Held([], l); }
  }

  /**
   * After any such run, a tick that sees no timed run and can list the processes leaves no listener stopped, none
   * recorded.
   */
  lemma NoneLeftStopped(s: System, run: seq<Event>, sc: Script)
    requires Fresh(s) && LosesNone(s, run) && !sc.fails
    ensures var t := Next(After(s, run), Ticks(None, sc)); AllRun(t.w) && t.b.st.paused == []
  {
    hide After;
    hide FreeTick;
    RunKeeps(s, run);
    FreeTickRuns(After(s, run).b, After(s, run).w, sc, false);
  }
}
