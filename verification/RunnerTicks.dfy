/**
 * One tick under a timed run (machine/benchRunners.ts, BenchRunners.step), listener by listener: exactly when a
 * listener ends it stopped, and exactly when it ends it stopped with a job in hand.
 */
module RunnerTicks {
  import opened Prelude
  import opened RunnerWorld
  import opened BenchRunners
  import opened RunnerRuns
  import opened RunnerTold

  // ------------------------------------------------------------------ one process over a stretch of time

  /**
   * The process is there as before: the same runner, as often stopped, and, if stopped, with the job and no worker but
   * what it had.
   */
  predicate Stays(a: Option<Listener>, b: Option<Listener>) {
    a.Some? ==> && b.Some? && b.value.root == a.value.root && b.value.stops == a.value.stops
                && (a.value.stops > 0 ==>
                  b.value.job == a.value.job && (b.value.worker.Some? ==> b.value.worker == a.value.worker))
  }

  lemma {:induction false} FindPut(ls: seq<Listener>, l: Listener, p: Pid)
    ensures Find(Put(ls, l), p) == if p == l.pid && Find(ls, p).Some? then Some(l) else Find(ls, p)
  {
    if ls != [] {
      FindPut(ls[1..], l, p);
      assert Put(ls, l)[1..] == Put(ls[1..], l);
    }
  }

  lemma {:induction false} FindWithout(ls: seq<Listener>, q: Pid, p: Pid)
    requires q != p
    ensures Find(Without(ls, q), p) == Find(ls, p)
  {
    if ls != [] {
      FindWithout(ls[1..], q, p);
      if ls[0].pid != q {
        assert Without(ls, q)[1..] == Without(ls[1..], q);
      } else {
        assert [] + Without(ls[1..], q) == Without(ls[1..], q);
      }
    }
  }

  lemma {:induction false} FindAmongMore(ls: seq<Listener>, more: seq<Listener>, p: Pid)
    requires Find(ls, p).Some?
    ensures Find(ls + more, p) == Find(ls, p)
  {
    if ls[0].pid != p {
      FindAmongMore(ls[1..], more, p);
      assert (ls + more)[1..] == ls[1..] + more;
    }
  }

  lemma FindStopped(w: World, q: Pid, k: nat, p: Pid)
    ensures var a, b := Find(w.ls, p), Find(SetStops(w, q, k).ls, p);
            b == if p == q && a.Some? then Some(a.value.(stops := k)) else a
  {
    hide SetStops;
    hide Find;
    FindChanged(w.ls, SetStops(w, q, k).ls, q, (l: Listener) => l.(stops := k), p);
  }

  lemma {:induction false} FindChanged(ls: seq<Listener>, ms: seq<Listener>, q: Pid, f: Listener -> Listener, p: Pid)
    requires |ms| == |ls| && forall l :: f(l).pid == l.pid
    requires forall i :: 0 <= i < |ls| ==> ms[i] == if ls[i].pid == q then f(ls[i]) else ls[i]
    ensures Find(ms, p) == if p == q && Find(ls, p).Some? then Some(f(Find(ls, p).value)) else Find(ls, p)
  {
    if ls != [] {
      FindChanged(ls[1..], ms[1..], q, f, p);
    }
  }

  lemma HappenStays(w: World, x: Env, p: Pid)
    requires x != Exit(p)
    ensures Stays(Find(w.ls, p), Find(Happen(w, x).ls, p))
  {
    hide Put;
    hide Without;
    hide Find;
    match x
    case Take(pid, e) =>
      if Find(w.ls, pid).Some? { FindPut(w.ls, Find(w.ls, pid).value.(job := true), p); }
    case StartWorker(pid, id) =>
      if Find(w.ls, pid).Some? { FindPut(w.ls, Find(w.ls, pid).value.(worker := Some(id)), p); }
    case Finish(pid, e) =>
      if Find(w.ls, pid).Some? { FindPut(w.ls, Find(w.ls, pid).value.(job := false, worker := None), p); }
    case LoseWorker(pid) =>
      if Find(w.ls, pid).Some? { FindPut(w.ls, Find(w.ls, pid).value.(worker := None), p); }
    case Exit(pid) => FindWithout(w.ls, pid, p);
    case Spawn(pid, root) =>
      if Find(w.ls, p).Some? { FindAmongMore(w.ls, [Listener(pid, root, 0, false, None)], p); }
    case _ =>
  }

  lemma {:induction false} HappenAllStays(w: World, xs: seq<Env>, p: Pid)
    requires Exit(p) !in xs
    ensures Stays(Find(w.ls, p), Find(HappenAll(w, xs).ls, p))
    decreases |xs|
  {
    hide Happen;
    hide Find;
    if xs != [] {
      HappenAllStays(w, xs[..|xs| - 1], p);
      HappenStays(HappenAll(w, xs[..|xs| - 1]), xs[|xs| - 1], p);
    }
  }

  lemma {:induction false} HappenAllDistinct(w: World, xs: seq<Env>)
    requires Distinct(w.ls)
    ensures Distinct(HappenAll(w, xs).ls)
    decreases |xs|
  {
    hide Happen;
    hide Distinct;
    if xs != [] {
      HappenAllDistinct(w, xs[..|xs| - 1]);
      HappenStill(HappenAll(w, xs[..|xs| - 1]), xs[|xs| - 1]);
    }
  }

  /** The process does not exit during the tick. */
  ghost predicate Lives(sc: Script, p: Pid) { forall c :: Exit(p) !in sc.env(c) }

  lemma MeanwhileStays(m: Moment, sc: Script, p: Pid)
    requires Lives(sc, p)
    ensures Stays(Find(m.w.ls, p), Find(Meanwhile(m, sc).w.ls, p))
  {
    hide Find;
    HappenAllStays(m.w, sc.env(m.c), p);
  }

  // ------------------------------------------------------------------ the first look at one listener

  /** The moment of the first look at `l`, when the daemon reaches it at `m`. */
  function LookAt(m: Moment, sc: Script): Moment { Meanwhile(m, sc) }

  /** And of the signal that stops it. */
  function StopAt(m: Moment, sc: Script): Moment { Meanwhile(Meanwhile(m, sc), sc) }

  /** Not recorded yet, no worker shown, a log that rules a job out, and a stop that succeeds. */
  predicate PassesFirst(m: Moment, l: Listener, kept: seq<Paused>, own: Option<nat>, sc: Script) {
    && !PidIn(kept, l.pid)
    && !Busy(l, own)
    && !HoldsJob(LogOf(LookAt(m, sc).w, l.root), sc.now(LookAt(m, sc).c))
    && !sc.stopFails(StopAt(m, sc).c)
  }

  ghost predicate NotAmong(hs: seq<Halted>, p: Pid) { forall j :: 0 <= j < |hs| ==> hs[j].pid != p }

  lemma StopOneOther(m: Moment, l: Listener, kept: seq<Paused>, own: Option<nat>, sc: Script, p: Pid)
    requires Lives(sc, p) && l.pid != p
    ensures var (m', h) := StopOne(m, l, kept, own, sc); NotAmong(h, p) && Stays(Find(m.w.ls, p), Find(m'.w.ls, p))
  {
    hide Find;
    hide HappenAll;
    hide SetStops;
    if !(PidIn(kept, l.pid) || Busy(l, own)) {
      MeanwhileStays(m, sc, p);
      MeanwhileStays(Meanwhile(m, sc), sc, p);
      FindStopped(StopAt(m, sc).w, l.pid, 1, p);
    }
  }

  /** How `p` is once the daemon has been at its listener `l`, reached at `m`: stopped, or as it was. */
  ghost predicate LookedAt(m: Moment, l: Listener, kept: seq<Paused>, own: Option<nat>, sc: Script, v: World) {
    var a, b, s := Find(m.w.ls, l.pid), Find(v.ls, l.pid), Find(StopAt(m, sc).w.ls, l.pid);
    if PassesFirst(m, l, kept, own, sc)
    then a.Some? ==> && b.Some? && s.Some? && b.value.stops == 1 && b.value.job == s.value.job
                     && b.value.root == a.value.root
    else Stays(a, b)
  }

  lemma StopOneOwn(m: Moment, l: Listener, kept: seq<Paused>, own: Option<nat>, sc: Script)
    requires Lives(sc, l.pid)
    ensures var (m', h) := StopOne(m, l, kept, own, sc);
            && LookedAt(m, l, kept, own, sc, m'.w)
            && h == if PassesFirst(m, l, kept, own, sc)
                    then [Halted(l.pid, l.root, LogOf(LookAt(m, sc).w, l.root))] else []
  {
    hide Find;
    hide HappenAll;
    hide SetStops;
    hide LogOf;
    MeanwhileStays(m, sc, l.pid);
    MeanwhileStays(Meanwhile(m, sc), sc, l.pid);
    FindStopped(StopAt(m, sc).w, l.pid, 1, l.pid);
  }

  lemma {:induction false} StopAllOther(m: Moment, ls: seq<Listener>, kept: seq<Paused>, own: Option<nat>, sc: Script,
                                        p: Pid)
    requires Lives(sc, p) && forall j :: 0 <= j < |ls| ==> ls[j].pid != p
    ensures var (m', hs) := StopAll(m, ls, kept, own, sc); NotAmong(hs, p) && Stays(Find(m.w.ls, p), Find(m'.w.ls, p))
    decreases |ls|
  {
    hide Find;
    hide StopOne;
    if ls != [] {
      StopAllOther(m, ls[..|ls| - 1], kept, own, sc, p);
      StopOneOther(StopAll(m, ls[..|ls| - 1], kept, own, sc).0, ls[|ls| - 1], kept, own, sc, p);
    }
  }

  lemma LookedAtStays(m: Moment, l: Listener, kept: seq<Paused>, own: Option<nat>, sc: Script, v: World, u: World)
    requires LookedAt(m, l, kept, own, sc, v) && Stays(Find(v.ls, l.pid), Find(u.ls, l.pid))
    ensures LookedAt(m, l, kept, own, sc, u)
  {
    hide Find;
    hide PassesFirst;
    hide HappenAll;
  }

  /** The first looks at `ls[..n]`, of which `ls[i]` is one: what they come to for that one. */
  lemma {:induction false} StopAllOne(m: Moment, ls: seq<Listener>, n: nat, i: nat, kept: seq<Paused>, own: Option<nat>,
                                      sc: Script)
    requires i < n <= |ls| && Distinct(ls) && Lives(sc, ls[i].pid)
    ensures var (mi, before) := StopAll(m, ls[..i], kept, own, sc);
            var (m', hs) := StopAll(m, ls[..n], kept, own, sc);
            && LookedAt(mi, ls[i], kept, own, sc, m'.w)
            && if PassesFirst(mi, ls[i], kept, own, sc)
               then && |before| < |hs| && NotAmong(hs[..|before|], ls[i].pid) && NotAmong(hs[|before| + 1..], ls[i].pid)
                    && hs[|before|] == Halted(ls[i].pid, ls[i].root, LogOf(LookAt(mi, sc).w, ls[i].root))
               else NotAmong(hs, ls[i].pid)
    decreases n
  {
    hide Find;
    hide StopOne;
    hide LookedAt;
    hide PassesFirst;
    hide LogOf;
    hide HappenAll;
    var p := ls[i].pid;
    var (mi, before) := StopAll(m, ls[..i], kept, own, sc);
    assert ls[..n][..n - 1] == ls[..n - 1];
    var (m1, hs1) := StopAll(m, ls[..n - 1], kept, own, sc);
    var (m2, h) := StopOne(m1, ls[n - 1], kept, own, sc);
    if n == i + 1 {
      StopAllOther(m, ls[..i], kept, own, sc, p);
      StopOneOwn(mi, ls[i], kept, own, sc);
      assert (before + h)[..|before|] == before;
    } else {
      StopAllOne(m, ls, n - 1, i, kept, own, sc);
      StopOneOther(m1, ls[n - 1], kept, own, sc, p);
      LookedAtStays(mi, ls[i], kept, own, sc, m1.w, m2.w);
      if PassesFirst(mi, ls[i], kept, own, sc) {
        assert (hs1 + h)[..|before|] == hs1[..|before|] && (hs1 + h)[|before| + 1..] == hs1[|before| + 1..] + h;
      }
    }
  }

  // ------------------------------------------------------------------ the second look at one listener

  /** No worker shown in the second listing, and a log that still says idle by the same line. */
  predicate PassesSecond(m: Moment, h: Halted, again: seq<Listener>, own: Option<nat>, sc: Script) {
    var after, seen := LogOf(LookAt(m, sc).w, h.root), Find(again, h.pid);
    !(seen.Some? && Busy(seen.value, own)) && after.state == IsIdle && after.line == h.log.line
  }

  lemma CheckOneOther(m: Moment, h: Halted, again: seq<Listener>, own: Option<nat>, sc: Script, p: Pid)
    requires Lives(sc, p) && h.pid != p
    ensures Stays(Find(m.w.ls, p), Find(CheckOne(m, h, again, own, sc).0.w.ls, p))
  {
    hide Find;
    hide HappenAll;
    hide SetStops;
    hide LogOf;
    MeanwhileStays(m, sc, p);
    FindStopped(LookAt(m, sc).w, h.pid, 0, p);
  }

  /** How the process is once it has been looked at again, reached at `m`: stopped still, and recorded, or running. */
  ghost predicate LookedAgain(a: Option<Listener>, passes: bool, q: Paused, b: Option<Listener>, ps: seq<Paused>) {
    if passes then Stays(a, b) && q in ps
    else a.Some? ==> b.Some? && b.value.stops == 0
  }

  lemma CheckOneOwn(m: Moment, h: Halted, again: seq<Listener>, own: Option<nat>, sc: Script)
    requires Lives(sc, h.pid)
    ensures var (m', ps) := CheckOne(m, h, again, own, sc);
            LookedAgain(Find(m.w.ls, h.pid), PassesSecond(m, h, again, own, sc), Paused(h.pid, h.root),
              Find(m'.w.ls, h.pid), ps)
  {
    hide Find;
    hide HappenAll;
    hide SetStops;
    hide LogOf;
    MeanwhileStays(m, sc, h.pid);
    FindStopped(LookAt(m, sc).w, h.pid, 0, h.pid);
  }

  lemma {:induction false} CheckAllOther(m: Moment, hs: seq<Halted>, again: seq<Listener>, own: Option<nat>, sc: Script,
                                         p: Pid)
    requires Lives(sc, p) && NotAmong(hs, p)
    ensures Stays(Find(m.w.ls, p), Find(CheckAll(m, hs, again, own, sc).0.w.ls, p))
    decreases |hs|
  {
    hide Find;
    hide CheckOne;
    if hs != [] {
      CheckAllOther(m, hs[..|hs| - 1], again, own, sc, p);
      CheckOneOther(CheckAll(m, hs[..|hs| - 1], again, own, sc).0, hs[|hs| - 1], again, own, sc, p);
    }
  }

  /** The second looks at `hs[..n]`, of which `hs[k]` is the only one of its process. */
  lemma {:induction false} CheckAllOne(m: Moment, hs: seq<Halted>, n: nat, k: nat, again: seq<Listener>,
                                       own: Option<nat>, sc: Script)
    requires k < n <= |hs| && Lives(sc, hs[k].pid) && NotAmong(hs[..k], hs[k].pid) && NotAmong(hs[k + 1..], hs[k].pid)
    ensures var (m', ps) := CheckAll(m, hs[..n], again, own, sc);
            var passes := PassesSecond(CheckAll(m, hs[..k], again, own, sc).0, hs[k], again, own, sc);
            LookedAgain(Find(m.w.ls, hs[k].pid), passes, Paused(hs[k].pid, hs[k].root), Find(m'.w.ls, hs[k].pid), ps)
    decreases n
  {
    hide Find;
    hide CheckOne;
    hide PassesSecond;
    hide HappenAll;
    assert hs[..n][..n - 1] == hs[..n - 1];
    var m1 := CheckAll(m, hs[..n - 1], again, own, sc).0;
    if n == k + 1 {
      CheckAllOther(m, hs[..k], again, own, sc, hs[k].pid);
      CheckOneOwn(m1, hs[k], again, own, sc);
    } else {
      CheckAllOne(m, hs, n - 1, k, again, own, sc);
      assert hs[n - 1] == hs[k + 1..][n - 1 - (k + 1)];
      CheckOneOther(m1, hs[n - 1], again, own, sc, hs[k].pid);
    }
  }

  // ------------------------------------------------------------------ the whole tick for one listener

  /** Whom the first looks at the first `n` listeners have stopped, and the moment after them. */
  function Firsts(b: Books, w: World, sc: Script, n: nat): (Moment, seq<Halted>)
    requires n <= |Listing(w, sc).w.ls|
  {
    var m := Listing(w, sc);
    StopAll(m, m.w.ls[..n], Keep(b.st.paused, m.w.ls), sc.own, sc)
  }

  /** The daemon can list the processes, and stops listener `i` of that listing. */
  predicate StopsIt(b: Books, w: World, sc: Script, i: nat)
    requires i < |Listing(w, sc).w.ls|
  {
    var m := Listing(w, sc);
    !sc.fails && PassesFirst(Firsts(b, w, sc, i).0, m.w.ls[i], Keep(b.st.paused, m.w.ls), sc.own, sc)
  }

  /**
   * The moment at which the daemon comes to its second look at listener `i`, after those at the listeners stopped
   * before it.
   */
  function BackAt(b: Books, w: World, sc: Script, i: nat): Moment
    requires i < |Listing(w, sc).w.ls|
  {
    var f, k := FirstLook(b.st.paused, w, sc), |Firsts(b, w, sc, i).1|;
    CheckAll(Meanwhile(f.m, sc), if k <= |f.hs| then f.hs[..k]
      else f.hs, SecondListing(b.st.paused, w, sc), sc.ownAgain, sc).0
  }

  /** And, by that second look, leaves it stopped. */
  predicate LeavesIt(b: Books, w: World, sc: Script, i: nat)
    requires i < |Listing(w, sc).w.ls|
  {
    var hs, k := FirstLook(b.st.paused, w, sc).hs, |Firsts(b, w, sc, i).1|;
    k < |hs| && PassesSecond(BackAt(b, w, sc, i), hs[k], SecondListing(b.st.paused, w, sc), sc.ownAgain, sc)
  }

  /** It has a job at the moment of the stop. */
  predicate JobAtStop(b: Books, w: World, sc: Script, i: nat)
    requires i < |Listing(w, sc).w.ls|
  {
    var l := Find(StopAt(Firsts(b, w, sc, i).0, sc).w.ls, Listing(w, sc).w.ls[i].pid);
    l.Some? && l.value.job
  }

  lemma ListingDistinct(w: World, sc: Script)
    requires Distinct(w.ls)
    ensures Distinct(Listing(w, sc).w.ls)
  {
    hide Distinct;
    HappenAllDistinct(w, sc.env(0));
  }

  /** A tick that goes to its end or to its second listing, in the terms above. */
  lemma TickIs(b: Books, w: World, ticket: nat, sc: Script)
    requires !sc.fails
    ensures var (b', m') := HeldTick(b, w, ticket, sc);
            var f := FirstLook(b.st.paused, w, sc);
            var (m3, ps) := SecondLooks(b.st.paused, w, sc);
            && Firsts(b, w, sc, |Listing(w, sc).w.ls|) == (f.m, f.hs) &&
              f.kept == Keep(b.st.paused, Listing(w, sc).w.ls)
            && m' == (if f.hs == [] then f.m else if sc.failsAgain then Meanwhile(f.m, sc) else m3)
            && (f.hs != [] && sc.failsAgain ==> b'.st.paused == f.kept)
            && (f.hs != [] && !sc.failsAgain ==> b'.st.paused == f.kept + ps && (ps != [] ==> b'.file == b'.st))
  {
    hide HappenAll;
    hide Keep;
    hide EndLeftovers;
    hide StopAll;
    hide CheckAll;
    hide SecondListing;
    assert Listing(w, sc).w.ls[..|Listing(w, sc).w.ls|] == Listing(w, sc).w.ls;
  }

  /** What the first look comes to for listener `i`, up to the second listing. */
  lemma FirstIs(b: Books, w: World, sc: Script, i: nat)
    requires Distinct(w.ls) && i < |Listing(w, sc).w.ls| && Lives(sc, Listing(w, sc).w.ls[i].pid) && !sc.fails
    ensures var l, f, k := Listing(w, sc).w.ls[i], FirstLook(b.st.paused, w, sc), |Firsts(b, w, sc, i).1|;
            var was, now := Find(f.m.w.ls, l.pid), Find(Meanwhile(f.m, sc).w.ls, l.pid);
            && was.Some? && Stays(was, now)
            && if StopsIt(b, w, sc, i)
               then && was.value.stops == 1 && was.value.job == JobAtStop(b, w, sc, i) && was.value.root == l.root
                    && k < |f.hs| && f.hs[k].pid == l.pid && f.hs[k].root == l.root
                    && NotAmong(f.hs[..k], l.pid) && NotAmong(f.hs[k + 1..], l.pid) && !PidIn(f.kept, l.pid)
               else Stays(Some(l), was) && NotAmong(f.hs, l.pid)
  {
    hide HeldTick;
    hide Find;
    hide StopAll;
    hide HappenAll;
    hide Keep;
    hide LogOf;
    hide HoldsJob;
    hide Distinct;
    var m := Listing(w, sc);
    var c, l, kept := m.w.ls, m.w.ls[i], Keep(b.st.paused, m.w.ls);
    ListingDistinct(w, sc);
    FindsIt(c, i);
    StopAllOne(m, c, |c|, i, kept, sc.own, sc);
    assert c[..|c|] == c;
    OthersBefore(c, i);
    StopAllOther(m, c[..i], kept, sc.own, sc, l.pid);
    MeanwhileStays(FirstLook(b.st.paused, w, sc).m, sc, l.pid);
  }

  /** What the second look comes to for it. */
  lemma SecondIs(b: Books, w: World, sc: Script, i: nat)
    requires Distinct(w.ls) && i < |Listing(w, sc).w.ls| && Lives(sc, Listing(w, sc).w.ls[i].pid) && !sc.fails
    ensures var l := Listing(w, sc).w.ls[i];
            var f := FirstLook(b.st.paused, w, sc);
            var (m3, ps) := SecondLooks(b.st.paused, w, sc);
            var was, then', now := Find(Meanwhile(f.m, sc).w.ls, l.pid), Find(BackAt(b, w, sc, i).w.ls, l.pid),
              Find(m3.w.ls, l.pid);
            if StopsIt(b, w, sc, i)
            then Stays(was, then') && LookedAgain(was, LeavesIt(b, w, sc, i), Paused(l.pid, l.root), now, ps)
            else Stays(was, now)
  {
    hide Find;
    hide CheckAll;
    hide HappenAll;
    hide FirstLook;
    hide SecondListing;
    hide Firsts;
    hide StopsIt;
    hide PassesSecond;
    FirstIs(b, w, sc, i);
    var l, f, k := Listing(w, sc).w.ls[i], FirstLook(b.st.paused, w, sc), |Firsts(b, w, sc, i).1|;
    var m2, again := Meanwhile(f.m, sc), SecondListing(b.st.paused, w, sc);
    assert f.hs[..|f.hs|] == f.hs;
    if StopsIt(b, w, sc, i) {
      CheckAllOne(m2, f.hs, |f.hs|, k, again, sc.ownAgain, sc);
      CheckAllOther(m2, f.hs[..k], again, sc.ownAgain, sc, l.pid);
    } else {
      CheckAllOther(m2, f.hs, again, sc.ownAgain, sc, l.pid);
    }
  }

  /**
   * How a listener of the first listing ends a tick: by the two looks at it, for every script of what happens
   * meanwhile.
   */
  lemma TickStops(b: Books, w: World, ticket: nat, sc: Script, i: nat)
    requires Distinct(w.ls) && i < |Listing(w, sc).w.ls| && Lives(sc, Listing(w, sc).w.ls[i].pid)
    ensures var (b', m') := HeldTick(b, w, ticket, sc);
            var l := Listing(w, sc).w.ls[i];
            var f := Find(m'.w.ls, l.pid);
            && f.Some?
            && (!StopsIt(b, w, sc, i) ==> Stays(Some(l), f))
            && (StopsIt(b, w, sc, i) && sc.failsAgain ==>
                  f.value.stops == 1 && f.value.job == JobAtStop(b, w, sc, i) && !PidIn(b'.st.paused, l.pid))
            && (StopsIt(b, w, sc, i) && !sc.failsAgain && !LeavesIt(b, w, sc, i) ==> f.value.stops == 0)
            && (StopsIt(b, w, sc, i) && !sc.failsAgain && LeavesIt(b, w, sc, i) ==>
                  && f.value.stops == 1 && f.value.job == JobAtStop(b, w, sc, i)
                  && Recorded(b'.st.paused, f.value) && Recorded(b'.file.paused, f.value))
  {
    hide Find;
    hide HappenAll;
    hide FirstLook;
    hide SecondListing;
    hide SecondLooks;
    hide Firsts;
    hide LeavesIt;
    hide JobAtStop;
    hide Distinct;
    hide PassesFirst;
    hide Closing;
    var l := Listing(w, sc).w.ls[i];
    if sc.fails {
      ListingDistinct(w, sc);
      FindsIt(Listing(w, sc).w.ls, i);
    } else {
      TickIs(b, w, ticket, sc);
      hide HeldTick;
      FirstIs(b, w, sc, i);
      SecondIs(b, w, sc, i);
      hide StopsIt;
    }
  }

  lemma OthersBefore(ls: seq<Listener>, i: nat)
    requires Distinct(ls) && i < |ls|
    ensures forall j :: 0 <= j < i ==> ls[..i][j].pid != ls[i].pid
  {
  }

  /**
   * Exactly when a running listener ends a tick stopped with a job: it has one at the moment of the stop, it was not
   * recorded before, the first listing shows no worker but the timed run's own under it and its log then rules a job
   * out, the stop succeeds, and either the second listing fails, or it shows none either and the log then still says
   * idle by the same line.
   */
  lemma StoppedWithJobIff(b: Books, w: World, ticket: nat, sc: Script, i: nat)
    requires Distinct(w.ls) && i < |Listing(w, sc).w.ls| && Lives(sc, Listing(w, sc).w.ls[i].pid)
    requires Listing(w, sc).w.ls[i].stops == 0
    ensures var (b', m') := HeldTick(b, w, ticket, sc);
            var f := Find(m'.w.ls, Listing(w, sc).w.ls[i].pid);
            var left := sc.failsAgain || LeavesIt(b, w, sc, i);
            && f.Some?
            && (f.value.stops > 0 <==> StopsIt(b, w, sc, i) && left)
            && (f.value.stops > 0 && f.value.job <==> JobAtStop(b, w, sc, i) && StopsIt(b, w, sc, i) && left)
            && (f.value.stops > 0 ==> (Recorded(b'.st.paused, f.value) <==> !sc.failsAgain))
  {
    hide HeldTick;
    hide StopsIt;
    hide LeavesIt;
    hide JobAtStop;
    hide Find;
    hide HappenAll;
    TickStops(b, w, ticket, sc, i);
    var (b', m') := HeldTick(b, w, ticket, sc);
    RecordedPid(b'.st.paused, Find(m'.w.ls, Listing(w, sc).w.ls[i].pid).value);
  }

  lemma RecordedPid(paused: seq<Paused>, l: Listener)
    ensures Recorded(paused, l) ==> PidIn(paused, l.pid)
  {
    if Recorded(paused, l) {
      var i :| 0 <= i < |paused| && paused[i] == Paused(l.pid, l.root);
      assert paused[i].pid == l.pid;
    }
  }

  /**
   * A listener that has a job when the daemon stops it, taken after the look at its log or before, runs again at the
   * end of the tick, as long as no step takes a job out of sight and the processes can be listed again.
   */
  lemma JobIsContinued(b: Books, w: World, ticket: nat, sc: Script, owns: nat -> bool, i: nat)
    requires Distinct(w.ls) && Told(w, owns) && GentleTick(HeldTick(b, w, ticket, sc).1, w, sc, owns)
    requires i < |Listing(w, sc).w.ls| && Lives(sc, Listing(w, sc).w.ls[i].pid) && !sc.failsAgain
    requires StopsIt(b, w, sc, i) && JobAtStop(b, w, sc, i)
    ensures var f := Find(HeldTick(b, w, ticket, sc).1.w.ls, Listing(w, sc).w.ls[i].pid); f.Some? && f.value.stops == 0
  {
    var l, f, k := Listing(w, sc).w.ls[i], FirstLook(b.st.paused, w, sc), |Firsts(b, w, sc, i).1|;
    var mk := BackAt(b, w, sc, i);
    TickStops(b, w, ticket, sc, i);
    FirstIs(b, w, sc, i);
    SecondIs(b, w, sc, i);
    ToldAt(b, w, ticket, sc, owns, k);
    MeanwhileStays(mk, sc, l.pid);
    var then' := Find(Meanwhile(mk, sc).w.ls, l.pid);
    assert LeavesIt(b, w, sc, i) ==> LogOf(LookAt(mk, sc).w, f.hs[k].root).state == IsIdle;
    hide *;
    assert then'.Some? && then'.value.job && then'.value.root == l.root;
    if LeavesIt(b, w, sc, i) {
      IdleHasNoJob(Meanwhile(mk, sc).w, then'.value);
    }
  }

  // ------------------------------------------------------------------ whom a tick has lost

  /** A tick without a timed run leaves whoever is stopped and not recorded as it is. */
  lemma FreeTickLeaves(b: Books, w: World, sc: Script, p: Pid)
    requires Lives(sc, p) && !PidIn(b.st.paused, p)
    ensures Stays(Find(w.ls, p), Find(FreeTick(b, w, sc).1.w.ls, p))
  {
    hide Find;
    hide ContinueAll;
    hide HappenAll;
    MeanwhileStays(Start(w), sc, p);
    ContinueAllLeaves(Listing(w, sc), b.st.paused, Listing(w, sc).w.ls, sc, p);
  }

  lemma {:induction false} ContinueAllLeaves(m: Moment, paused: seq<Paused>, ls: seq<Listener>, sc: Script, p: Pid)
    requires Lives(sc, p) && !PidIn(paused, p)
    ensures Stays(Find(m.w.ls, p), Find(ContinueAll(m, paused, ls, sc).w.ls, p))
    decreases |paused|
  {
    hide Find;
    hide HappenAll;
    hide SetStops;
    if paused != [] {
      var front, q := paused[..|paused| - 1], paused[|paused| - 1];
      assert paused[|paused| - 1].pid == q.pid && forall j :: 0 <= j < |front| ==> front[j] == paused[j];
      ContinueAllLeaves(m, front, ls, sc, p);
      var m1 := ContinueAll(m, front, ls, sc);
      MeanwhileStays(m1, sc, p);
      FindStopped(Meanwhile(m1, sc).w, q.pid, 0, p);
    }
  }

  // ------------------------------------------------------------------ a tick on a machine where nothing else happens

  /**
   * Nothing happens during the tick, at time `t`, under the worker `own`, and the first listing and every stop succeed.
   */
  ghost predicate Quiet(sc: Script, own: Option<nat>, t: int) {
    && sc.own == sc.ownAgain == own && !sc.fails
    && forall c :: sc.env(c) == [] && sc.now(c) == t && !sc.stopFails(c)
  }

  lemma QuietMeanwhile(m: Moment, sc: Script, own: Option<nat>, t: int)
    requires Quiet(sc, own, t)
    ensures Meanwhile(m, sc).w == m.w && Meanwhile(m, sc).trace == m.trace
  {
    assert sc.env(m.c) == [] && m.trace + [] == m.trace;
  }

  lemma {:induction false} QuietStopAll(m: Moment, ls: seq<Listener>, kept: seq<Paused>, own: Option<nat>, sc: Script,
                                        t: int)
    requires Quiet(sc, own, t)
    ensures SameBut(m.w, StopAll(m, ls, kept, own, sc).0.w) && StopAll(m, ls, kept, own, sc).0.trace == m.trace
    decreases |ls|
  {
    hide HappenAll;
    hide Trace;
    hide LogOf;
    hide SetStops;
    if ls != [] {
      QuietStopAll(m, ls[..|ls| - 1], kept, own, sc, t);
      var m1 := StopAll(m, ls[..|ls| - 1], kept, own, sc).0;
      QuietMeanwhile(m1, sc, own, t);
      QuietMeanwhile(Meanwhile(m1, sc), sc, own, t);
    }
  }

  lemma {:induction false} QuietCheckAll(m: Moment, hs: seq<Halted>, again: seq<Listener>, own: Option<nat>, sc: Script,
                                         t: int)
    requires Quiet(sc, own, t)
    ensures SameBut(m.w, CheckAll(m, hs, again, own, sc).0.w)
    decreases |hs|
  {
    hide HappenAll;
    hide SetStops;
    hide LogOf;
    if hs != [] {
      QuietCheckAll(m, hs[..|hs| - 1], again, own, sc, t);
      var m1 := CheckAll(m, hs[..|hs| - 1], again, own, sc).0;
      QuietMeanwhile(m1, sc, own, t);
    }
  }

  lemma SameFind(w: World, v: World, i: nat)
    requires Distinct(w.ls) && SameBut(w, v) && i < |w.ls|
    ensures Find(v.ls, w.ls[i].pid) == Some(v.ls[i])
  {
    FindsIt(v.ls, i);
  }

  lemma {:induction false} KeepPid(paused: seq<Paused>, ls: seq<Listener>, p: Pid)
    requires Find(ls, p).Some?
    ensures PidIn(Keep(paused, ls), p) == PidIn(paused, p)
  {
    hide Find;
    if paused != [] {
      var n := |paused| - 1;
      KeepPid(paused[..n], ls, p);
      var k := Keep(paused[..n], ls);
      if PidIn(paused[..n], p) {
        var j :| 0 <= j < |k| && k[j].pid == p;
        assert Keep(paused, ls)[j] == k[j];
        var j' :| 0 <= j' < n && paused[..n][j'].pid == p;
        assert paused[j'].pid == p;
      } else if paused[n].pid == p {
        assert Keep(paused, ls)[|k|] == paused[n];
      } else {
        KeepAmong(paused, ls);
      }
    }
  }

  lemma {:induction false} KeepAmong(paused: seq<Paused>, ls: seq<Listener>)
    ensures forall j :: 0 <= j < |Keep(paused, ls)| ==> Keep(paused, ls)[j] in paused
  {
    if paused != [] {
      KeepAmong(paused[..|paused| - 1], ls);
    }
  }

  /** Idle by its log, and settled. */
  predicate ReadsIdle(log: ListenerLog, t: int) { log.state == IsIdle && !HoldsJob(log, t) }

  /**
   * With nothing happening meanwhile, what a look at the machine before the tick decides: a running listener ends it
   * stopped with a job exactly when it has one that no worker but the timed run's own runs, it is not recorded, and its
   * log reads idle and settled.
   */
  lemma QuietTickIff(b: Books, w: World, ticket: nat, sc: Script, own: Option<nat>, t: int, i: nat)
    requires Quiet(sc, own, t) && !sc.failsAgain && Distinct(w.ls) && i < |w.ls| && w.ls[i].stops == 0
    ensures var (_, m') := HeldTick(b, w, ticket, sc);
            var f := Find(m'.w.ls, w.ls[i].pid);
            && f.Some?
            && (f.value.stops > 0 && f.value.job <==>
                  && w.ls[i].job && !Busy(w.ls[i], own) && !PidIn(b.st.paused, w.ls[i].pid)
                  && ReadsIdle(LogOf(w, w.ls[i].root), t))
  {
    hide HeldTick;
    hide StopAll;
    hide CheckAll;
    hide HappenAll;
    hide Keep;
    hide Find;
    QuietMeanwhile(Start(w), sc, own, t);
    var m := Listing(w, sc);
    assert m.w == w;
    StoppedWithJobIff(b, w, ticket, sc, i);
    FindsIt(w.ls, i);
    KeepPid(b.st.paused, w.ls, w.ls[i].pid);
    QuietFirst(b, w, sc, own, t, i);
    if StopsIt(b, w, sc, i) {
      QuietSecond(b, w, sc, own, t, i);
    }
  }

  lemma QuietFirst(b: Books, w: World, sc: Script, own: Option<nat>, t: int, i: nat)
    requires Quiet(sc, own, t) && Distinct(w.ls) && i < |w.ls| && Listing(w, sc).w == w
    ensures JobAtStop(b, w, sc, i) == w.ls[i].job
    ensures StopsIt(b, w, sc, i) <==>
            !PidIn(Keep(b.st.paused, w.ls), w.ls[i].pid) && !Busy(w.ls[i], own) && !HoldsJob(LogOf(w, w.ls[i].root), t)
  {
    hide StopAll;
    hide HappenAll;
    hide Keep;
    hide Find;
    var m := Listing(w, sc);
    var mi := Firsts(b, w, sc, i).0;
    QuietStopAll(m, w.ls[..i], Keep(b.st.paused, w.ls), own, sc, t);
    QuietMeanwhile(mi, sc, own, t);
    QuietMeanwhile(Meanwhile(mi, sc), sc, own, t);
    SameFind(w, mi.w, i);
  }

  lemma QuietSecond(b: Books, w: World, sc: Script, own: Option<nat>, t: int, i: nat)
    requires Quiet(sc, own, t) && Distinct(w.ls) && i < |w.ls| && Listing(w, sc).w == w && StopsIt(b, w, sc, i)
    requires !Busy(w.ls[i], own)
    ensures LeavesIt(b, w, sc, i) <==> LogOf(w, w.ls[i].root).state == IsIdle
  {
    hide StopAll;
    hide CheckAll;
    hide HappenAll;
    hide Keep;
    hide Find;
    var m := Listing(w, sc);
    var kept := Keep(b.st.paused, w.ls);
    var (mi, before) := Firsts(b, w, sc, i);
    QuietStopAll(m, w.ls[..i], kept, own, sc, t);
    QuietMeanwhile(mi, sc, own, t);
    assert Lives(sc, w.ls[i].pid);
    StopAllOne(m, w.ls, |w.ls|, i, kept, own, sc);
    assert w.ls[..|w.ls|] == w.ls;
    QuietStopAll(m, w.ls, kept, own, sc, t);
    var f := FirstLook(b.st.paused, w, sc);
    var m2, hs := Meanwhile(f.m, sc), f.hs;
    QuietMeanwhile(f.m, sc, own, t);
    assert SecondListing(b.st.paused, w, sc) == m2.w.ls;
    SameFind(w, m2.w, i);
    var k := |before|;
    QuietCheckAll(m2, hs[..k], m2.w.ls, own, sc, t);
    QuietMeanwhile(CheckAll(m2, hs[..k], m2.w.ls, own, sc).0, sc, own, t);
  }

  /** A machine with one listener, under runner 7, whose log reads `tail`, with more of it further back. */
  function OneRunner(job: bool, worker: Option<nat>, tail: seq<Entry>): World {
    World([Listener(1, 7, 0, job, worker)], map[7 := Log(tail, true)], map[1 := 7])
  }

  /** A tick on a quiet machine whose second listing fails or not. */
  function QuietScript(own: Option<nat>, failsAgain: bool): Script {
    Script(_ => [], _ => 100_000, _ => false, false, own, failsAgain, 0, own, [], _ => false)
  }

  /**
   * Two machines on which it does: the worker is gone, or it is the timed run's own, and the job's line is out of
   * reach.
   */
  lemma UntoldJobIsStopped(own: nat, hidden: bool)
    ensures var w := OneRunner(true, if hidden then Some(own) else None, [Entry(None, 1, 6)]);
            var (_, m) := HeldTick(Books(NONE, NONE), w, 3, QuietScript(Some(own), false));
            var f := Find(m.w.ls, 1);
            Real(w) && f.Some? && f.value.stops > 0 && f.value.job
  {
    hide HeldTick;
    var w := OneRunner(true, if hidden then Some(own) else None, [Entry(None, 1, 6)]);
    assert LastMark([Entry(None, 1, 6)]) == None;
    QuietTickIff(Books(NONE, NONE), w, 3, QuietScript(Some(own), false), Some(own), 100_000, 0);
  }

  // ------------------------------------------------------------------ whom a tick loses

  /** An event that is no tick under a timed run, and in which the process does not exit. */
  ghost predicate Passes(e: Event, p: Pid) {
    match e
    case Ticks(holder, sc) => holder.None? && Lives(sc, p)
    case Machine(xs) => Exit(p) !in xs
    case Restart => true
  }

  /** Stopped, and recorded neither by the daemon nor in its file. */
  ghost predicate Lost(s: System, p: Pid) {
    var l := Find(s.w.ls, p);
    l.Some? && l.value.stops > 0 && !PidIn(s.b.st.paused, p) && !PidIn(s.b.file.paused, p)
  }

  lemma NextLost(s: System, e: Event, p: Pid)
    requires Lost(s, p) && Passes(e, p)
    ensures Lost(Next(s, e), p)
  {
    hide Find;
    hide HappenAll;
    hide ContinueAll;
    match e
    case Ticks(holder, sc) => FreeTickLeaves(s.b, s.w, sc, p);
    case Machine(xs) => HappenAllStays(s.w, xs, p);
    case Restart =>
  }

  /**
   * Whom a tick has lost stays stopped for good: through every run of ticks without a timed run, restarts and the
   * machine.
   */
  lemma {:induction false} LostForGood(s: System, run: seq<Event>, p: Pid)
    requires Lost(s, p) && forall i :: 0 <= i < |run| ==> Passes(run[i], p)
    ensures Lost(After(s, run), p)
    decreases |run|
  {
    hide Lost;
    hide Next;
    hide Passes;
    if run != [] {
      LostForGood(s, run[..|run| - 1], p);
      NextLost(After(s, run[..|run| - 1]), run[|run| - 1], p);
    }
  }

  /** A listener that the tick stops is lost by it, when it lives and the processes cannot be listed again. */
  lemma TickLoses(b: Books, w: World, ticket: nat, sc: Script, i: nat)
    requires Distinct(w.ls) && i < |Listing(w, sc).w.ls| && Lives(sc, Listing(w, sc).w.ls[i].pid)
    requires StopsIt(b, w, sc, i) && sc.failsAgain && !PidIn(b.file.paused, Listing(w, sc).w.ls[i].pid)
    ensures var (b', m) := HeldTick(b, w, ticket, sc); Lost(System(b', m.w), Listing(w, sc).w.ls[i].pid)
  {
    TickStops(b, w, ticket, sc, i);
    FirstIs(b, w, sc, i);
    assert Loses(b, w, sc);
    FileStays(b, w, ticket, sc);
    hide HeldTick;
    hide HappenAll;
    hide StopsIt;
    hide Find;
    hide Loses;
    hide FirstLook;
  }

  lemma FileStays(b: Books, w: World, ticket: nat, sc: Script)
    requires Loses(b, w, sc)
    ensures HeldTick(b, w, ticket, sc).0.file == b.file
  {
    hide FirstLook;
  }

  const IDLE := World([Listener(1, 7, 0, false, None)], map[7 := Log([Entry(Some(Idle), 0, 5)], true)], map[1 := 7])

  lemma IdleIsStopped()
    ensures var sc := QuietScript(None, true);
            Real(IDLE) && Listing(IDLE, sc).w == IDLE && StopsIt(Books(NONE, NONE), IDLE, sc, 0) && Lives(sc, 1)
  {
    hide Keep;
    var b, sc := Books(NONE, NONE), QuietScript(None, true);
    assert LogOf(IDLE, 7) == ListenerLog(IsIdle, Some(0), Some(5));
    QuietMeanwhile(Start(IDLE), sc, None, 100_000);
    QuietFirst(b, IDLE, sc, None, 100_000, 0);
    FindsIt(IDLE.ls, 0);
    KeepPid([], IDLE.ls, 1);
  }

  /** A run that loses a listener: it is idle, the tick stops it, and the processes cannot be listed again. */
  lemma ATickLosesOne(run: seq<Event>)
    requires forall i :: 0 <= i < |run| ==> Passes(run[i], 1)
    ensures var s := System(Books(NONE, NONE), IDLE);
            Fresh(s) && Lost(After(Next(s, Ticks(Some(3), QuietScript(None, true))), run), 1)
  {
    var s, sc := System(Books(NONE, NONE), IDLE), QuietScript(None, true);
    IdleIsStopped();
    assert Fresh(s) && Next(s, Ticks(Some(3), sc)) ==
      System(HeldTick(s.b, IDLE, 3, sc).0, HeldTick(s.b, IDLE, 3, sc).1.w) by {
      hide HeldTick;
      hide StopsIt;
    }
    assert Listing(IDLE, sc).w.ls[0].pid == 1 && !PidIn(s.b.file.paused, 1);
    hide *;
    TickLoses(s.b, IDLE, 3, sc, 0);
    LostForGood(Next(s, Ticks(Some(3), sc)), run, 1);
  }

  // ------------------------------------------------------------------ a worker the cached listing does not show

  /** After the first listing the listener takes a job, its line leaves the tail, and its worker starts. */
  function Handed(): seq<Env> { [Take(1, Entry(Some(Job), 99_000, 6)), Trim(7, 2), StartWorker(1, 9)] }

  function CachedScript(): Script {
    Script((c: nat) => if c == 1 then Handed()
      else [], _ => 100_000, _ => false, false, None, false, 0, None, [], _ => false)
  }

  const HANDED := World([Listener(1, 7, 0, true, Some(9))], map[7 := Log([], true)], map[1 := 7])

  const TAKEN := World(
    [Listener(1, 7, 0, true, None)], map[7 := Log([Entry(Some(Idle), 0, 5), Entry(Some(Job), 99_000, 6)], true)],
      map[1 := 7])
  const TRIMMED := World([Listener(1, 7, 0, true, None)], map[7 := Log([], true)], map[1 := 7])

  lemma HappenMore(w: World, xs: seq<Env>, x: Env)
    ensures HappenAll(w, xs + [x]) == Happen(HappenAll(w, xs), x)
    ensures Trace(w, xs + [x]) == Trace(w, xs) + [Happened(HappenAll(w, xs), x)]
  {
    assert (xs + [x])[..|xs|] == xs;
  }

  lemma HandedSteps()
    ensures Happen(IDLE, Handed()[0]) == TAKEN
    ensures Happen(TAKEN, Handed()[1]) == TRIMMED
    ensures Happen(TRIMMED, Handed()[2]) == HANDED
  {
    assert Put(IDLE.ls, TAKEN.ls[0]) == TAKEN.ls && Put(TRIMMED.ls, HANDED.ls[0]) == HANDED.ls;
    assert IDLE.logs[7].tail + [Entry(Some(Job), 99_000, 6)] == TAKEN.logs[7].tail;
    assert TAKEN.logs[7].tail[2..] == [];
  }

  lemma HandedIs()
    ensures HappenAll(IDLE, Handed()) == HANDED && |Trace(IDLE, Handed())| == 3 && Trace(IDLE, Handed())[0].w == IDLE
  {
    var xs := Handed();
    HandedSteps();
    NothingHappens(IDLE);
    hide Happen;
    hide HappenAll;
    hide Trace;
    HappenMore(IDLE, [], xs[0]);
    HappenMore(IDLE, [xs[0]], xs[1]);
    HappenMore(IDLE, [xs[0], xs[1]], xs[2]);
    assert [] + [xs[0]] == [xs[0]] && [xs[0]] + [xs[1]] == [xs[0], xs[1]] && [xs[0], xs[1]] + [xs[2]] == xs;
  }

  /** The second listing is the cached one: no worker shows, and the listener stays stopped with its job. */
  lemma CachedHidesWorker(ticket: nat)
    ensures var f := Find(HeldTick(Books(NONE, NONE), IDLE, ticket, CachedScript()).1.w.ls, 1);
            f.Some? && f.value.stops > 0 && f.value.job
  {
    hide *;
    var b, sc := Books(NONE, NONE), CachedScript();
    CachedStops();
    CachedLeaves();
    TickStops(b, IDLE, ticket, sc, 0);
  }

  lemma CachedStops()
    ensures var b, sc := Books(NONE, NONE), CachedScript();
            && Distinct(IDLE.ls) && Listing(IDLE, sc) == Moment(IDLE, 1, []) && IDLE.ls != [] && IDLE.ls[0].pid == 1 &&
              !sc.failsAgain
            && StopsIt(b, IDLE, sc, 0) && JobAtStop(b, IDLE, sc, 0) && Lives(sc, 1)
            && FirstLook([], IDLE, sc).m == Moment(SetStops(HANDED, 1, 1), 3, Trace(IDLE, Handed()))
            && FirstLook([], IDLE, sc).hs == [Halted(1, 7, ListenerLog(IsIdle, None, None))]
            && Firsts(b, IDLE, sc, 0).1 == []
  {
    hide Trace;
    hide HappenAll;
    var b, sc := Books(NONE, NONE), CachedScript();
    HandedIs();
    NothingHappens(IDLE);
    NothingHappens(HANDED);
    var m := Moment(IDLE, 1, []);
    assert Listing(IDLE, sc) == m;
    assert Keep([], IDLE.ls) == [];
    assert IDLE.ls[..0] == [] && IDLE.ls[..|IDLE.ls| - 1] == [];
    var look := Meanwhile(m, sc);
    assert look == Moment(HANDED, 2, Trace(IDLE, Handed()));
    assert LastMark([]) == None && LogOf(HANDED, 7) == ListenerLog(IsIdle, None, None);
    assert Meanwhile(look, sc) == Moment(HANDED, 3, Trace(IDLE, Handed()));
    assert StopAll(m, [], [], None, sc) == (m, []);
    assert StopAll(m, IDLE.ls, [], None, sc).1 == [] + [Halted(1, 7, ListenerLog(IsIdle, None, None))];
  }

  lemma NothingHappens(w: World)
    ensures HappenAll(w, []) == w && Trace(w, []) == []
  {
  }

  lemma CachedLeaves()
    ensures LeavesIt(Books(NONE, NONE), IDLE, CachedScript(), 0)
  {
    hide Trace;
    hide HappenAll;
    hide FirstLook;
    hide Firsts;
    hide StopsIt;
    hide JobAtStop;
    hide SetStops;
    var sc := CachedScript();
    CachedStops();
    HandedIs();
    var v := SetStops(HANDED, 1, 1);
    NothingHappens(v);
    var f := FirstLook([], IDLE, sc);
    var m2 := Meanwhile(f.m, sc);
    assert m2 == Moment(v, 4, Trace(IDLE, Handed()));
    assert SecondListing([], IDLE, sc) == IDLE.ls;
    assert f.hs[..0] == [];
    assert BackAt(Books(NONE, NONE), IDLE, sc, 0) == m2;
    assert LastMark([]) == None && LogOf(v, 7) == ListenerLog(IsIdle, None, None);
    FindsIt(IDLE.ls, 0);
  }
}
