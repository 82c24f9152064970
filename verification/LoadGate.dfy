/**
 * CI runners only while their machine has room (machine/loadRunners.ts, LoadGate): two thresholds over two windows of
 * CPU samples open and close a gate; while it is closed idle listeners are suspended, with the looks of
 * machine/benchRunners.ts. A suspend counts: a process suspended twice runs again only after two resumes.
 */
module LoadGate {
  import opened Prelude
  import opened RunnerWorld
  import opened BenchRunners

  datatype Settings = Settings(pauseAt: real, resumeBelow: real, pauseOver: int, resumeOver: int, gated: Root -> bool)

  datatype Sample = Sample(at: int, pct: real)

  datatype Gate = Gate(closed: bool, suspended: seq<Paused>)

  const SLACK := 30_000

  // ------------------------------------------------------------------ the samples

  /** Samples older than the longest window and a slack go. */
  function Trimmed(samples: seq<Sample>, now: int, keep: int): seq<Sample> {
    if samples != [] && now - samples[0].at > keep then Trimmed(samples[1..], now, keep) else samples
  }

  function Within(samples: seq<Sample>, now: int, ms: int): seq<Sample> {
    if samples == [] then []
    else (if now - samples[0].at <= ms then [samples[0]] else []) + Within(samples[1..], now, ms)
  }

  function Sum(samples: seq<Sample>): real {
    if samples == [] then 0.0 else samples[0].pct + Sum(samples[1..])
  }

  /** The mean over the last `ms`, once that much is held. */
  function Mean(samples: seq<Sample>, now: int, ms: int): Option<real> {
    if samples == [] || now - samples[0].at < ms then None
    else
      var xs := Within(samples, now, ms);
      if xs == [] then None else Some(Sum(xs) / |xs| as real)
  }

  function Longest(g: Settings): int { Max(g.pauseOver, g.resumeOver) }

  function Sampled(samples: seq<Sample>, g: Settings, now: int, pct: real): seq<Sample> {
    Trimmed(samples + [Sample(now, pct)], now, Longest(g) + SLACK)
  }

  /** Whether the gate is closed after a look at the samples. */
  function ClosedAfter(closed: bool, samples: seq<Sample>, g: Settings, now: int): bool {
    var hi, lo := Mean(samples, now, g.pauseOver), Mean(samples, now, g.resumeOver);
    if !closed && hi.Some? && hi.value >= g.pauseAt then true
    else if closed && lo.Some? && lo.value < g.resumeBelow then false
    else closed
  }

  // ------------------------------------------------------------------ suspending and resuming

  /** NtSuspendProcess and NtResumeProcess count. */
  function Suspend(w: World, pid: Pid): (v: World)
    ensures |v.ls| == |w.ls| && v.logs == w.logs && v.home == w.home
    ensures forall i :: 0 <= i < |w.ls| ==>
      v.ls[i] == if w.ls[i].pid == pid then w.ls[i].(stops := w.ls[i].stops + 1) else w.ls[i]
  {
    w.(ls := seq(|w.ls|, i requires 0 <= i < |w.ls| =>
                   if w.ls[i].pid == pid then w.ls[i].(stops := w.ls[i].stops + 1) else w.ls[i]))
  }

  function Resume(w: World, pid: Pid): (v: World)
    ensures |v.ls| == |w.ls| && v.logs == w.logs && v.home == w.home
    ensures forall i :: 0 <= i < |w.ls| ==>
      v.ls[i] == if w.ls[i].pid == pid && w.ls[i].stops > 0 then w.ls[i].(stops := w.ls[i].stops - 1) else w.ls[i]
  {
    w.(ls := seq(|w.ls|, i requires 0 <= i < |w.ls| =>
                   if w.ls[i].pid == pid && w.ls[i].stops > 0 then w.ls[i].(stops := w.ls[i].stops - 1) else w.ls[i]))
  }

  function SuspendOne(m: Moment, l: Listener, c: seq<Listener>, kept: seq<Paused>, g: Settings, sc: Script): (Moment,
                      seq<Halted>) {
    if PidIn(kept, l.pid) || Busy(l, None) || HasWorker(c, l.root, None) || !g.gated(l.root) then (m, [])
    else
      var m1 := Meanwhile(m, sc);
      var log := LogOf(m1.w, l.root);
      if HoldsJob(log, sc.now(m1.c)) then (m1, [])
      else
        var m2 := Meanwhile(m1, sc);
        if sc.stopFails(m2.c) then (m2, [])
        else (m2.(w := Suspend(m2.w, l.pid)), [Halted(l.pid, l.root, log)])
  }

  function SuspendAll(m: Moment, ls: seq<Listener>, c: seq<Listener>, kept: seq<Paused>, g: Settings,
                      sc: Script): (Moment, seq<Halted>) {
    if ls == [] then (m, [])
    else
      var (m1, hs) := SuspendAll(m, ls[..|ls| - 1], c, kept, g, sc);
      var (m2, h) := SuspendOne(m1, ls[|ls| - 1], c, kept, g, sc);
      (m2, hs + h)
  }

  predicate TookAJob(after: ListenerLog, h: Halted, again: seq<Listener>) {
    var seen := Find(again, h.pid);
    || seen.None? || Busy(seen.value, None) || HasWorker(again, seen.value.root, None)
    || after.state != IsIdle || after.line != h.log.line
  }

  function RecheckOne(m: Moment, h: Halted, again: seq<Listener>, sc: Script): (Moment, seq<Paused>) {
    var m1 := Meanwhile(m, sc);
    if TookAJob(LogOf(m1.w, h.root), h, again) then (m1.(w := Resume(m1.w, h.pid)), [])
    else (m1, [Paused(h.pid, h.root)])
  }

  function RecheckAll(m: Moment, hs: seq<Halted>, again: seq<Listener>, sc: Script): (Moment, seq<Paused>) {
    if hs == [] then (m, [])
    else
      var (m1, ps) := RecheckAll(m, hs[..|hs| - 1], again, sc);
      var (m2, p) := RecheckOne(m1, hs[|hs| - 1], again, sc);
      (m2, ps + p)
  }

  /** The recorded listeners that still run, by pid and runner. */
  function KeepSame(suspended: seq<Paused>, ls: seq<Listener>): seq<Paused> {
    if suspended == [] then []
    else
      var p := suspended[|suspended| - 1];
      var l := Find(ls, p.pid);
      KeepSame(suspended[..|suspended| - 1], ls) + if l.Some? && l.value.root == p.root then [p] else []
  }

  /** What the daemon knows, and what ci-load-gate.json says. */
  datatype Ledger = Ledger(st: Gate, file: Gate)

  /** The first look of a closed tick. */
  function GateLook(suspended: seq<Paused>, w: World, g: Settings, sc: Script): First {
    var m := Listing(w, sc);
    var kept := KeepSame(suspended, m.w.ls);
    var (m1, hs) := SuspendAll(m, m.w.ls, m.w.ls, kept, g, sc);
    First(kept, m1, hs)
  }

  /** The second look, at a listing taken anew. */
  function GateRecheck(suspended: seq<Paused>, w: World, g: Settings, sc: Script): (Moment, seq<Paused>) {
    var f := GateLook(suspended, w, g, sc);
    var m := Meanwhile(f.m, sc);
    RecheckAll(m, f.hs, m.w.ls, sc)
  }

  /** The end of a closed tick that came that far, having added `ps` to those kept: saved if anything changed. */
  function GateClosing(b: Ledger, kept: seq<Paused>, ps: seq<Paused>): Ledger {
    var st := b.st.(suspended := kept + ps);
    Ledger(st, if |kept| != |b.st.suspended| || ps != [] then st else b.file)
  }

  /** A listing that fails ends the tick there, with nothing saved. */
  function SuspendIdle(b: Ledger, w: World, g: Settings, sc: Script): (Ledger, Moment) {
    if sc.fails then (b, Listing(w, sc))
    else
      var f := GateLook(b.st.suspended, w, g, sc);
      if f.hs == [] then (GateClosing(b, f.kept, []), f.m)
      else if sc.failsAgain then (b.(st := b.st.(suspended := f.kept)), Meanwhile(f.m, sc))
      else
        var (m, ps) := GateRecheck(b.st.suspended, w, g, sc);
        (GateClosing(b, f.kept, ps), m)
  }

  function ResumeList(m: Moment, suspended: seq<Paused>, ls: seq<Listener>, sc: Script): Moment {
    if suspended == [] then m
    else
      var m1 := ResumeList(m, suspended[..|suspended| - 1], ls, sc);
      var p := suspended[|suspended| - 1];
      var l := Find(ls, p.pid);
      if l.Some? && l.value.root == p.root then
        var m2 := Meanwhile(m1, sc); m2.(w := Resume(m2.w, p.pid))
      else m1
  }

  function ResumeAll(b: Ledger, w: World, sc: Script): (Ledger, Moment) {
    var m, st := Listing(w, sc), b.st.(suspended := []);
    if sc.fails then (b, m) else (Ledger(st, st), ResumeList(m, b.st.suspended, m.w.ls, sc))
  }

  /** The gate opened or closed, and that saved. */
  function Moved(b: Ledger, closed: bool): Ledger {
    if b.st.closed == closed then b else Ledger(b.st.(closed := closed), b.st.(closed := closed))
  }

  /** A tick, given the gate's settings, if any, and whether the samples leave it closed. */
  function Turn(b: Ledger, w: World, g: Option<Settings>, closed: bool, sc: Script): (Ledger, Moment) {
    if g.None? then (if b.st.suspended == [] then (b, Start(w)) else ResumeAll(b, w, sc))
    else if b.st.closed && !closed then ResumeAll(Moved(b, false), w, sc)
    else if closed then SuspendIdle(Moved(b, true), w, g.value, sc)
    else (b, Start(w))
  }

  // ------------------------------------------------------------------ the tick, as code

  class GateKeeper {
    var st: Gate
    var samples: seq<Sample>
    /** ci-load-gate.json */
    var file: Gate

    constructor (file: Gate)
      ensures st == file && this.file == file && samples == []
    {
      st, samples, this.file := file, [], file;
    }

    function View(): Ledger
      reads this
    {
      Ledger(st, file)
    }

    method Step(w: World, g: Option<Settings>, now: int, pct: real, sc: Script) returns (m: Moment)
      modifies this
      ensures samples == if g.None? then old(samples) else Sampled(old(samples), g.value, now, pct)
      ensures g.Some? ==> (View(), m) == Turn(old(View()), w, g, ClosedAfter(old(st).closed, samples, g.value, now), sc)
      ensures g.None? ==> (View(), m) == Turn(old(View()), w, g, old(st).closed, sc)
    {
      m := Start(w);
      if g.None? {
        if st.suspended != [] {
          m := ResumeLoop(w, sc);
        }
        return;
      }
      samples := samples + [Sample(now, pct)];
      var keep := Max(g.value.pauseOver, g.value.resumeOver) + SLACK;
      ghost var all := samples;
      while samples != [] && now - samples[0].at > keep
        invariant Trimmed(samples, now, keep) == Trimmed(all, now, keep)
        invariant View() == old(View())
        decreases |samples|
      {
        samples := samples[1..];
      }
      var hi, lo := Mean(samples, now, g.value.pauseOver), Mean(samples, now, g.value.resumeOver);
      if !st.closed && hi.Some? && hi.value >= g.value.pauseAt {
        st := st.(closed := true);
        file := st;
      } else if st.closed && lo.Some? && lo.value < g.value.resumeBelow {
        st := st.(closed := false);
        file := st;
        m := ResumeLoop(w, sc);
        return;
      }
      if st.closed {
        m := SuspendLoop(w, g.value, sc);
      }
    }

    method ResumeLoop(w: World, sc: Script) returns (m: Moment)
      modifies this
      ensures samples == old(samples) && (View(), m) == ResumeAll(old(View()), w, sc)
    {
      m := Meanwhile(Start(w), sc);
      if sc.fails {
        return;
      }
      ghost var m0 := m;
      var c, suspended := m.w.ls, st.suspended;
      for i := 0 to |suspended|
        invariant m == ResumeList(m0, suspended[..i], c, sc)
      {
        assert suspended[..i + 1][..i] == suspended[..i];
        var l := Find(c, suspended[i].pid);
        if l.Some? && l.value.root == suspended[i].root {
          m := Meanwhile(m, sc);
          m := m.(w := Resume(m.w, suspended[i].pid));
        }
      }
      assert suspended[..|suspended|] == suspended;
      st := st.(suspended := []);
      file := st;
    }

    method SuspendLoop(w: World, g: Settings, sc: Script) returns (m: Moment)
      modifies this
      ensures samples == old(samples) && (View(), m) == SuspendIdle(old(View()), w, g, sc)
    {
      m := Meanwhile(Start(w), sc);
      if sc.fails {
        return;
      }
      var c := m.w.ls;
      var kept := KeepSame(st.suspended, c);
      var changed := |kept| != |st.suspended|;
      st := st.(suspended := kept);
      var stopped;
      m, stopped := StopLoop(m, c, kept, g, sc);
      if stopped != [] {
        m := Meanwhile(m, sc);
        if sc.failsAgain {
          return;
        }
        var more;
        m, more := AgainLoop(m, stopped, m.w.ls, sc);
        st := st.(suspended := st.suspended + more);
        changed := changed || more != [];
      }
      assert kept + [] == kept;
      if changed {
        file := st;
      }
    }
  }

  method StopLoop(m0: Moment, c: seq<Listener>, kept: seq<Paused>, g: Settings, sc: Script)
    returns (m: Moment, stopped: seq<Halted>)
    ensures (m, stopped) == SuspendAll(m0, c, c, kept, g, sc)
  {
    m, stopped := m0, [];
    for i := 0 to |c|
      invariant (m, stopped) == SuspendAll(m0, c[..i], c, kept, g, sc)
    {
      assert c[..i + 1][..i] == c[..i] && stopped + [] == stopped;
      var l := c[i];
      if !PidIn(kept, l.pid) && !Busy(l, None) && !HasWorker(c, l.root, None) && g.gated(l.root) {
        m := Meanwhile(m, sc);
        var log := ListenerLogLoop(Tail(m.w, l.root), Full(m.w, l.root));
        if !HoldsJob(log, sc.now(m.c)) {
          m := Meanwhile(m, sc);
          if !sc.stopFails(m.c) {
            m := m.(w := Suspend(m.w, l.pid));
            stopped := stopped + [Halted(l.pid, l.root, log)];
          }
        }
      }
    }
    assert c[..|c|] == c;
  }

  method AgainLoop(m0: Moment, stopped: seq<Halted>, c: seq<Listener>, sc: Script)
    returns (m: Moment, more: seq<Paused>)
    ensures (m, more) == RecheckAll(m0, stopped, c, sc)
  {
    m, more := m0, [];
    for i := 0 to |stopped|
      invariant (m, more) == RecheckAll(m0, stopped[..i], c, sc)
    {
      assert stopped[..i + 1][..i] == stopped[..i] && more + [] == more;
      var h := stopped[i];
      m := Meanwhile(m, sc);
      var after := ListenerLogLoop(Tail(m.w, h.root), Full(m.w, h.root));
      if TookAJob(after, h, c) {
        m := m.(w := Resume(m.w, h.pid));
      } else {
        more := more + [Paused(h.pid, h.root)];
      }
    }
    assert stopped[..|stopped|] == stopped;
  }
}
