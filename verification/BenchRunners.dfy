/**
 * Pausing CI runners for a timed run (machine/benchRunners.ts, BenchRunners.step): the daemon looks at each listener's
 * log, stops it, looks again, and continues it at once if it took a job meanwhile. The machine goes on between any two
 * of these.
 */
module BenchRunners {
  import opened Prelude
  import opened RunnerWorld

  datatype Paused = Paused(pid: Pid, root: Root)

  /** runners.json: the turn that paused them, the listeners paused, the leftovers ended. */
  datatype Runners = Runners(ticket: Option<nat>, paused: seq<Paused>, ended: seq<Pid>)

  const NONE := Runners(None, [], [])

  /** A listener stopped in this tick, and its log as read before the stop. */
  datatype Halted = Halted(pid: Pid, root: Root, log: ListenerLog)

  datatype Leftover = Leftover(pid: Pid, root: Root)

  /** The machine during a tick, how often the daemon has let it go on, and all that has happened to it. */
  datatype Moment = Moment(w: World, c: nat, trace: seq<Happened>)

  /**
   * What happens at each pause of the daemon, its clock then, which signals fail, and the leftovers it lists. Its first
   * listing of processes may fail, and its second; the second, once listings are cached, may be that of any step since
   * the first. `own` and `ownAgain`: the worker the timed run itself runs under, as each listing shows it.
   */
  datatype Script = Script(env: nat -> seq<Env>, now: nat -> int, stopFails: nat -> bool,
                           fails: bool, own: Option<nat>, failsAgain: bool, second: nat, ownAgain: Option<nat>,
                           leftovers: seq<Leftover>, termFails: Pid -> bool)

  function Start(w: World): Moment { Moment(w, 0, []) }

  function Meanwhile(m: Moment, sc: Script): Moment {
    Moment(HappenAll(m.w, sc.env(m.c)), m.c + 1, m.trace + Trace(m.w, sc.env(m.c)))
  }

  /** What the second listing shows, the first having been taken before step `from`. */
  function Again(m: Moment, from: nat, sc: Script): seq<Listener> {
    if from <= sc.second < |m.trace| then m.trace[sc.second].w.ls else m.w.ls
  }

  // ------------------------------------------------------------------ the tick, as values

  predicate PidIn(paused: seq<Paused>, pid: Pid) {
    exists i :: 0 <= i < |paused| && paused[i].pid == pid
  }

  /** The recorded listeners that still run. */
  function Keep(paused: seq<Paused>, ls: seq<Listener>): seq<Paused> {
    if paused == [] then []
    else
      var p := paused[|paused| - 1];
      Keep(paused[..|paused| - 1], ls) + if Find(ls, p.pid).Some? then [p] else []
  }

  function StopOne(m: Moment, l: Listener, kept: seq<Paused>, own: Option<nat>, sc: Script): (Moment, seq<Halted>) {
    if PidIn(kept, l.pid) || Busy(l, own) then (m, [])
    else
      var m1 := Meanwhile(m, sc);
      var log := LogOf(m1.w, l.root);
      if HoldsJob(log, sc.now(m1.c)) then (m1, [])
      else
        var m2 := Meanwhile(m1, sc);
        if sc.stopFails(m2.c) then (m2, [])
        else (m2.(w := SetStops(m2.w, l.pid, 1)), [Halted(l.pid, l.root, log)])
  }

  function StopAll(m: Moment, ls: seq<Listener>, kept: seq<Paused>, own: Option<nat>, sc: Script): (Moment,
                   seq<Halted>) {
    if ls == [] then (m, [])
    else
      var (m1, hs) := StopAll(m, ls[..|ls| - 1], kept, own, sc);
      var (m2, h) := StopOne(m1, ls[|ls| - 1], kept, own, sc);
      (m2, hs + h)
  }

  /** The second look at a stopped listener: a worker, or a log that moved on, continues it. */
  function CheckOne(m: Moment, h: Halted, again: seq<Listener>, own: Option<nat>, sc: Script): (Moment, seq<Paused>) {
    var m1 := Meanwhile(m, sc);
    var after := LogOf(m1.w, h.root);
    var handed := after.state != IsIdle || after.line != h.log.line;
    var seen := Find(again, h.pid);
    if (seen.Some? && Busy(seen.value, own)) || handed then (m1.(w := SetStops(m1.w, h.pid, 0)), [])
    else (m1, [Paused(h.pid, h.root)])
  }

  function CheckAll(m: Moment, hs: seq<Halted>, again: seq<Listener>, own: Option<nat>, sc: Script): (Moment,
                    seq<Paused>) {
    if hs == [] then (m, [])
    else
      var (m1, ps) := CheckAll(m, hs[..|hs| - 1], again, own, sc);
      var (m2, p) := CheckOne(m1, hs[|hs| - 1], again, own, sc);
      (m2, ps + p)
  }

  predicate HasWorker(ls: seq<Listener>, root: Root, own: Option<nat>) {
    exists i :: 0 <= i < |ls| && ls[i].root == root && Busy(ls[i], own)
  }

  function EndLeftovers(ended: seq<Pid>, xs: seq<Leftover>, ls: seq<Listener>, own: Option<nat>, sc: Script): seq<Pid> {
    if xs == [] then ended
    else
      var e, x := EndLeftovers(ended, xs[..|xs| - 1], ls, own, sc), xs[|xs| - 1];
      if HasWorker(ls, x.root, own) || x.pid in e || sc.termFails(x.pid) then e else e + [x.pid]
  }

  /** What the daemon knows, and what runners.json says. */
  datatype Books = Books(st: Runners, file: Runners)

  /** The first look: who is still recorded, the moment after it, and whom it has stopped. */
  datatype First = First(kept: seq<Paused>, m: Moment, hs: seq<Halted>)

  function Listing(w: World, sc: Script): Moment { Meanwhile(Start(w), sc) }

  function FirstLook(paused: seq<Paused>, w: World, sc: Script): First {
    var m := Listing(w, sc);
    var kept := Keep(paused, m.w.ls);
    var (m1, hs) := StopAll(m, m.w.ls, kept, sc.own, sc);
    First(kept, m1, hs)
  }

  /** The second listing of a tick, as far as it is of use. */
  function SecondListing(paused: seq<Paused>, w: World, sc: Script): seq<Listener> {
    Again(Meanwhile(FirstLook(paused, w, sc).m, sc), |Listing(w, sc).trace|, sc)
  }

  /** The second look. */
  function SecondLooks(paused: seq<Paused>, w: World, sc: Script): (Moment, seq<Paused>) {
    var f := FirstLook(paused, w, sc);
    CheckAll(Meanwhile(f.m, sc), f.hs, SecondListing(paused, w, sc), sc.ownAgain, sc)
  }

  /**
   * The end of a tick that came that far, having added `ps` to those kept: leftovers, and the file if anything changed.
   */
  function Closing(b: Books, ticket: nat, kept: seq<Paused>, ps: seq<Paused>, ls: seq<Listener>, own: Option<nat>,
                   sc: Script): Books {
    var was := if b.st.ticket != Some(ticket) then [] else b.st.ended;
    var st := Runners(Some(ticket), kept + ps, EndLeftovers(was, sc.leftovers, ls, own, sc));
    var changed := b.st.ticket != Some(ticket) || |kept| != |b.st.paused| || ps != [] || st.ended != was;
    Books(st, if changed then st else b.file)
  }

  /** A tick while a timed run holds the lock. A listing that fails ends it there, with nothing saved. */
  function HeldTick(b: Books, w: World, ticket: nat, sc: Script): (Books, Moment) {
    var m := Listing(w, sc);
    var st := if b.st.ticket != Some(ticket) then Runners(Some(ticket), b.st.paused, []) else b.st;
    if sc.fails then (b.(st := st), m)
    else
      var f := FirstLook(b.st.paused, w, sc);
      if f.hs == [] then (Closing(b, ticket, f.kept, [], m.w.ls, sc.own, sc), f.m)
      else if sc.failsAgain then (b.(st := st.(paused := f.kept)), Meanwhile(f.m, sc))
      else
        var (m3, ps) := SecondLooks(b.st.paused, w, sc);
        (Closing(b, ticket, f.kept, ps, SecondListing(b.st.paused, w, sc), sc.ownAgain, sc), m3)
  }

  function ContinueAll(m: Moment, paused: seq<Paused>, ls: seq<Listener>, sc: Script): Moment {
    if paused == [] then m
    else
      var m1 := ContinueAll(m, paused[..|paused| - 1], ls, sc);
      var p := paused[|paused| - 1];
      var l := Find(ls, p.pid);
      if l.Some? && l.value.root == p.root
      then var m2 := Meanwhile(m1, sc); m2.(w := SetStops(m2.w, p.pid, 0)) else m1
  }

  /** A tick with no timed run. */
  function FreeTick(b: Books, w: World, sc: Script): (Books, Moment) {
    if b.st.paused == [] && b.st.ticket.None? then (b, Start(w))
    else
      var m := Listing(w, sc);
      if sc.fails then (b, m) else (Books(NONE, NONE), ContinueAll(m, b.st.paused, m.w.ls, sc))
  }

  function Tick(b: Books, w: World, holder: Option<nat>, sc: Script): (Books, Moment) {
    if holder.Some? then HeldTick(b, w, holder.value, sc) else FreeTick(b, w, sc)
  }

  // ------------------------------------------------------------------ the tick, as code

  class Daemon {
    var st: Runners
    /** runners.json */
    var file: Runners

    constructor (file: Runners)
      ensures st == file && this.file == file
    {
      st, this.file := file, file;
    }

    function View(): Books
      reads this
    {
      Books(st, file)
    }

    method Step(w: World, holder: Option<nat>, sc: Script) returns (m: Moment)
      modifies this
      ensures (View(), m) == Tick(old(View()), w, holder, sc)
    {
      hide SecondListing;
      if holder.None? {
        m := Free(w, sc);
        return;
      }
      var changed := false;
      if st.ticket != holder {
        st := Runners(holder, st.paused, []);
        changed := true;
      }
      m := Meanwhile(Start(w), sc);
      if sc.fails {
        return;
      }
      ghost var before := st.paused;
      var c, own, from := m.w.ls, sc.own, |m.trace|;
      var kept := Keep(st.paused, c);
      if |kept| != |st.paused| {
        changed := true;
      }
      st := st.(paused := kept);
      var stopped;
      m, stopped := StopIdle(m, c, kept, own, sc);
      if stopped != [] {
        m := Meanwhile(m, sc);
        if sc.failsAgain {
          return;
        }
        c, own := Again(m, from, sc), sc.ownAgain;
        SecondListingIs(before, w, sc);
        var more;
        m, more := LookAgain(m, stopped, c, own, sc);
        st := st.(paused := st.paused + more);
        changed := changed || more != [];
      }
      assert kept + [] == kept;
      var ended := EndLeftoversLoop(st.ended, sc.leftovers, c, own, sc);
      EndedGrows(st.ended, sc.leftovers, c, own, sc);
      changed := changed || ended != st.ended;
      st := st.(ended := ended);
      if changed {
        file := st;
      }
    }

    method Free(w: World, sc: Script) returns (m: Moment)
      modifies this
      ensures (View(), m) == FreeTick(old(View()), w, sc)
    {
      m := Start(w);
      if st.paused == [] && st.ticket.None? {
        return;
      }
      m := Meanwhile(m, sc);
      if sc.fails {
        return;
      }
      ghost var m0 := m;
      var c, paused := m.w.ls, st.paused;
      for i := 0 to |paused|
        invariant m == ContinueAll(m0, paused[..i], c, sc)
      {
        assert paused[..i + 1][..i] == paused[..i];
        var l := Find(c, paused[i].pid);
        if l.Some? && l.value.root == paused[i].root {
          m := Meanwhile(m, sc);
          m := m.(w := SetStops(m.w, paused[i].pid, 0));
        }
      }
      assert paused[..|paused|] == paused;
      st := NONE;
      file := st;
    }
  }

  lemma SecondListingIs(paused: seq<Paused>, w: World, sc: Script)
    ensures SecondListing(paused, w, sc) == Again(Meanwhile(FirstLook(paused, w, sc).m, sc), |Listing(w, sc).trace|, sc)
  {
  }

  method StopIdle(m0: Moment, c: seq<Listener>, kept: seq<Paused>, own: Option<nat>, sc: Script)
    returns (m: Moment, stopped: seq<Halted>)
    ensures (m, stopped) == StopAll(m0, c, kept, own, sc)
  {
    m, stopped := m0, [];
    for i := 0 to |c|
      invariant (m, stopped) == StopAll(m0, c[..i], kept, own, sc)
    {
      assert c[..i + 1][..i] == c[..i] && stopped + [] == stopped;
      var l := c[i];
      if !PidIn(kept, l.pid) && !Busy(l, own) {
        m := Meanwhile(m, sc);
        var log := ListenerLogLoop(Tail(m.w, l.root), Full(m.w, l.root));
        if !HoldsJob(log, sc.now(m.c)) {
          m := Meanwhile(m, sc);
          if !sc.stopFails(m.c) {
            m := m.(w := SetStops(m.w, l.pid, 1));
            stopped := stopped + [Halted(l.pid, l.root, log)];
          }
        }
      }
    }
    assert c[..|c|] == c;
  }

  method LookAgain(m0: Moment, stopped: seq<Halted>, c: seq<Listener>, own: Option<nat>, sc: Script)
    returns (m: Moment, more: seq<Paused>)
    ensures (m, more) == CheckAll(m0, stopped, c, own, sc)
  {
    m, more := m0, [];
    for i := 0 to |stopped|
      invariant (m, more) == CheckAll(m0, stopped[..i], c, own, sc)
    {
      assert stopped[..i + 1][..i] == stopped[..i] && more + [] == more;
      var h := stopped[i];
      m := Meanwhile(m, sc);
      var after := ListenerLogLoop(Tail(m.w, h.root), Full(m.w, h.root));
      var handed := after.state != IsIdle || after.line != h.log.line;
      var seen := Find(c, h.pid);
      if (seen.Some? && Busy(seen.value, own)) || handed {
        m := m.(w := SetStops(m.w, h.pid, 0));
      } else {
        more := more + [Paused(h.pid, h.root)];
      }
    }
    assert stopped[..|stopped|] == stopped;
  }

  method EndLeftoversLoop(ended: seq<Pid>, xs: seq<Leftover>, c: seq<Listener>, own: Option<nat>, sc: Script)
    returns (e: seq<Pid>)
    ensures e == EndLeftovers(ended, xs, c, own, sc)
  {
    e := ended;
    for i := 0 to |xs|
      invariant e == EndLeftovers(ended, xs[..i], c, own, sc)
    {
      assert xs[..i + 1][..i] == xs[..i];
      if !HasWorker(c, xs[i].root, own) && xs[i].pid !in e && !sc.termFails(xs[i].pid) {
        e := e + [xs[i].pid];
      }
    }
    assert xs[..|xs|] == xs;
  }

  /** Leftovers of a turn are only added, each at most once. */
  lemma {:induction false} EndedGrows(ended: seq<Pid>, xs: seq<Leftover>, ls: seq<Listener>, own: Option<nat>,
                                      sc: Script)
    ensures ended <= EndLeftovers(ended, xs, ls, own, sc)
    ensures (forall i, j :: 0 <= i < j < |ended| ==> ended[i] != ended[j]) ==>
              var e := EndLeftovers(ended, xs, ls, own, sc); forall i, j :: 0 <= i < j < |e| ==> e[i] != e[j]
  {
    if xs != [] {
      EndedGrows(ended, xs[..|xs| - 1], ls, own, sc);
    }
  }
}
