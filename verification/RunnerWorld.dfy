/**
 * CI runners as the daemon meets them (machine/benchRunners.ts): listeners that take, run and finish jobs and log what
 * they do, the process listing, and what the tail of a listener's log says about jobs.
 */
module RunnerWorld {
  import opened Prelude

  type Pid = nat
  type Root = nat

  datatype Mark = Job | Idle
  /** A log line: what it says about jobs, if anything, when it was written, and its text. */
  datatype Entry = Entry(mark: Option<Mark>, at: int, text: nat)

  /**
   * A listener process. `stops`: how often it has been suspended and not resumed; above 0 it does nothing. `worker`:
   * the process that runs its job, if any.
   */
  datatype Listener = Listener(pid: Pid, root: Root, stops: nat, job: bool, worker: Option<nat>)

  /** A census shows a worker under it: one that is not `own`, the worker the timed run itself runs under. */
  predicate Busy(l: Listener, own: Option<nat>) { l.worker.Some? && l.worker != own }

  /** The part of a runner's current log that is read, its last 64 KB; `full`: there is more of it further back. */
  datatype Log = Log(tail: seq<Entry>, full: bool)

  /** `home`: the runner each listener's pid has belonged to. */
  datatype World = World(ls: seq<Listener>, logs: map<Root, Log>, home: map<Pid, Root>)

  // ------------------------------------------------------------------ reading a log

  datatype State = HasJob | IsIdle | Unknown
  datatype ListenerLog = ListenerLog(state: State, at: Option<int>, line: Option<nat>)

  /** The newest job or idle line. */
  function LastMark(lines: seq<Entry>): (r: Option<Entry>)
    ensures r.Some? ==> r.value in lines && r.value.mark.Some?
  {
    if lines == [] then None
    else if lines[|lines| - 1].mark.Some? then Some(lines[|lines| - 1])
    else LastMark(lines[..|lines| - 1])
  }

  function Tail(w: World, root: Root): Option<seq<Entry>> {
    if root in w.logs then Some(w.logs[root].tail) else None
  }

  /** The tail holds less than the whole log. */
  predicate Full(w: World, root: Root) { root in w.logs && w.logs[root].full }

  function ReadLog(tail: Option<seq<Entry>>, full: bool): ListenerLog {
    if tail.None? then ListenerLog(Unknown, None, None)
    else
      match LastMark(tail.value)
      case Some(e) => ListenerLog(if e.mark.value == Job then HasJob else IsIdle, Some(e.at), Some(e.text))
      case None => if full then ListenerLog(IsIdle, None, None) else ListenerLog(Unknown, None, None)
  }

  function LogOf(w: World, root: Root): ListenerLog { ReadLog(Tail(w, root), Full(w, root)) }

  /** listenerLog: from the last line back to the first that says something about jobs. */
  method ListenerLogLoop(tail: Option<seq<Entry>>, full: bool) returns (r: ListenerLog)
    ensures r == ReadLog(tail, full)
  {
    if tail.None? {
      return ListenerLog(Unknown, None, None);
    }
    var lines := tail.value;
    var i := |lines| - 1;
    assert lines[..|lines|] == lines;
    while i >= 0
      invariant -1 <= i < |lines|
      invariant LastMark(lines) == LastMark(lines[..i + 1])
    {
      assert lines[..i + 1][..i] == lines[..i];
      if lines[i].mark.Some? {
        return ListenerLog(if lines[i].mark.value == Job then HasJob
          else IsIdle, Some(lines[i].at), Some(lines[i].text));
      }
      i := i - 1;
    }
    r := if full then ListenerLog(IsIdle, None, None) else ListenerLog(Unknown, None, None);
  }

  const SETTLE_MS := 10_000
  const STALE_JOB_MS := 12 * 60_000

  /** A listener without a worker may not be stopped now. */
  predicate HoldsJob(log: ListenerLog, now: int) {
    || log.state == Unknown
    || (log.at.Some? && log.state == HasJob && now - log.at.value < STALE_JOB_MS)
    || (log.at.Some? && log.state == IsIdle && now - log.at.value < SETTLE_MS)
  }

  /** Line `i` is the newest that says something about jobs. */
  ghost predicate Newest(lines: seq<Entry>, i: int) {
    0 <= i < |lines| && lines[i].mark.Some? && forall j :: i < j < |lines| ==> lines[j].mark.None?
  }

  lemma {:induction false} LastMarkIs(lines: seq<Entry>)
    ensures LastMark(lines).None? ==> forall i :: 0 <= i < |lines| ==> lines[i].mark.None?
    ensures LastMark(lines).Some? ==> exists i :: Newest(lines, i) && lines[i] == LastMark(lines).value
  {
    if lines != [] {
      var front := lines[..|lines| - 1];
      if lines[|front|].mark.Some? {
        assert Newest(lines, |front|);
      } else {
        LastMarkIs(front);
        if LastMark(front).Some? {
          var i :| Newest(front, i) && front[i] == LastMark(front).value;
          assert Newest(lines, i);
        }
      }
    }
  }

  /**
   * When a listener without a worker may be stopped, by its log. The newest line about jobs says idle and is ten
   * seconds old, or job and is twelve minutes old; or no line that is read is about jobs, and there is more of the log.
   */
  lemma MayBeStoppedIff(w: World, root: Root, now: int)
    ensures !HoldsJob(LogOf(w, root), now) <==>
            root in w.logs &&
            var log := w.logs[root];
            || (log.full && forall i :: 0 <= i < |log.tail| ==> log.tail[i].mark.None?)
            || exists i :: Newest(log.tail, i) &&
                 now - log.tail[i].at >= if log.tail[i].mark == Some(Job) then 720_000 else 10_000
  {
    if root in w.logs {
      var lines := w.logs[root].tail;
      LastMarkIs(lines);
      assert forall i, j :: Newest(lines, i) && Newest(lines, j) ==> i == j;
      hide LastMark;
    }
  }

  // ------------------------------------------------------------------ what happens on the machine

  datatype Env =
    | Take(pid: Pid, e: Entry)          // a listener acknowledges a job, and logs it
    | StartWorker(pid: Pid, id: nat)    // the worker of its job starts
    | Finish(pid: Pid, e: Entry)        // its job ends, worker and all, and it logs that
    | Say(pid: Pid, e: Entry)           // it logs another line, true to whether it has a job
    | Trim(root: Root, n: nat)          // its oldest `n` lines fall out of the 64 KB that are read
    | LoseWorker(pid: Pid)              // a worker exits before its listener has said that its job ended
    | Exit(pid: Pid)
    | Spawn(pid: Pid, root: Root)       // a runner starts, over a new log; no pid goes from one runner to another

  function Find(ls: seq<Listener>, pid: Pid): (r: Option<Listener>)
    ensures r.Some? ==> r.value in ls && r.value.pid == pid
    ensures r.None? ==> forall i :: 0 <= i < |ls| ==> ls[i].pid != pid
  {
    if ls == [] then None else if ls[0].pid == pid then Some(ls[0]) else Find(ls[1..], pid)
  }

  /** Every process `pid` becomes `l`. */
  function Put(ls: seq<Listener>, l: Listener): (r: seq<Listener>)
    ensures |r| == |ls| && forall i :: 0 <= i < |ls| ==> r[i] == if ls[i].pid == l.pid then l else ls[i]
  {
    if ls == [] then [] else [if ls[0].pid == l.pid then l else ls[0]] + Put(ls[1..], l)
  }

  function Without(ls: seq<Listener>, pid: Pid): (r: seq<Listener>)
    ensures forall l :: l in r <==> l in ls && l.pid != pid
  {
    if ls == [] then [] else (if ls[0].pid == pid then [] else [ls[0]]) + Without(ls[1..], pid)
  }

  function Write(w: World, root: Root, e: Entry): World {
    if root in w.logs then w.(logs := w.logs[root := w.logs[root].(tail := w.logs[root].tail + [e])])
    else w.(logs := w.logs[root := Log([e], false)])
  }

  /** One process a pid, one runner a root, and a worker only under a job. */
  ghost predicate Distinct(ls: seq<Listener>) {
    && (forall i, j :: 0 <= i < j < |ls| ==> ls[i].pid != ls[j].pid && ls[i].root != ls[j].root)
    && (forall i :: 0 <= i < |ls| ==> ls[i].worker.Some? ==> ls[i].job)
  }

  ghost predicate Homed(w: World) {
    forall i :: 0 <= i < |w.ls| ==> w.ls[i].pid in w.home && w.home[w.ls[i].pid] == w.ls[i].root
  }

  /** A machine that can be: distinct listeners, each at home. */
  ghost predicate Real(w: World) {
    Distinct(w.ls) && Homed(w)
  }

  /**
   * A stopped listener does nothing; a process may still be ended from outside, and a listener may be without a worker.
   */
  function Happen(w: World, x: Env): World {
    match x
    case Take(pid, e) =>
      var l := Find(w.ls, pid);
      if l.Some? && l.value.stops == 0 && !l.value.job && e.mark == Some(Job)
      then Write(w, l.value.root, e).(ls := Put(w.ls, l.value.(job := true))) else w
    case StartWorker(pid, id) =>
      var l := Find(w.ls, pid);
      if l.Some? && l.value.stops == 0 && l.value.job && l.value.worker.None?
      then w.(ls := Put(w.ls, l.value.(worker := Some(id)))) else w
    case Finish(pid, e) =>
      var l := Find(w.ls, pid);
      if l.Some? && l.value.stops == 0 && l.value.job && e.mark == Some(Idle)
      then Write(w, l.value.root, e).(ls := Put(w.ls, l.value.(job := false, worker := None))) else w
    case Say(pid, e) =>
      var l := Find(w.ls, pid);
      if l.Some? && l.value.stops == 0 && (e.mark == Some(Job) ==> l.value.job) &&
        (e.mark == Some(Idle) ==> !l.value.job)
      then Write(w, l.value.root, e) else w
    case Trim(root, n) =>
      if root in w.logs && 0 < n <= |w.logs[root].tail|
      then w.(logs := w.logs[root := Log(w.logs[root].tail[n..], true)]) else w
    case LoseWorker(pid) =>
      var l := Find(w.ls, pid);
      if l.Some? && l.value.worker.Some? then w.(ls := Put(w.ls, l.value.(worker := None))) else w
    case Exit(pid) => w.(ls := Without(w.ls, pid))
    case Spawn(pid, root) =>
      if && (forall i :: 0 <= i < |w.ls| ==> w.ls[i].pid != pid && w.ls[i].root != root)
         && (pid in w.home ==> w.home[pid] == root)
      then World(w.ls + [Listener(pid, root, 0, false, None)], w.logs[root := Log([], false)], w.home[pid := root])
        else w
  }

  /** Any number of such steps. */
  function HappenAll(w: World, xs: seq<Env>): World
    decreases |xs|
  {
    if xs == [] then w else Happen(HappenAll(w, xs[..|xs| - 1]), xs[|xs| - 1])
  }

  /** A step, and the machine it happened to. */
  datatype Happened = Happened(w: World, x: Env)

  function Trace(w: World, xs: seq<Env>): seq<Happened>
    decreases |xs|
  {
    if xs == [] then []
    else Trace(w, xs[..|xs| - 1]) + [Happened(HappenAll(w, xs[..|xs| - 1]), xs[|xs| - 1])]
  }

  // ------------------------------------------------------------------ what the machine cannot do to a stopped listener

  /** `l` was `m`: the same process, as often stopped, with the same job, and no worker it did not have. */
  ghost predicate Was(m: Listener, l: Listener) {
    m.pid == l.pid && m.root == l.root && m.stops == l.stops && m.job == l.job &&
      (l.worker.Some? ==> l.worker == m.worker)
  }

  ghost predicate WasAmong(ls: seq<Listener>, l: Listener) {
    exists i :: 0 <= i < |ls| && Was(ls[i], l)
  }

  /** Every listener stopped in `v` was stopped in `w`. */
  ghost predicate Still(w: World, v: World) {
    forall l :: l in v.ls && l.stops > 0 ==> WasAmong(w.ls, l)
  }

  lemma WasSelf(ls: seq<Listener>, l: Listener)
    requires l in ls
    ensures WasAmong(ls, l)
  {
    var i :| 0 <= i < |ls| && ls[i] == l;
    assert Was(ls[i], l);
  }

  lemma StillSame(w: World, v: World)
    requires v.ls == w.ls
    ensures Still(w, v)
  {
    forall l | l in v.ls && l.stops > 0 ensures WasAmong(w.ls, l) {
      WasSelf(w.ls, l);
    }
  }

  lemma StillThen(u: World, v: World, w: World)
    requires Still(u, v) && Still(v, w)
    ensures Still(u, w)
  {
    forall l | l in w.ls && l.stops > 0 ensures WasAmong(u.ls, l) {
      var i :| 0 <= i < |v.ls| && Was(v.ls[i], l);
      assert v.ls[i] in v.ls;
      var j :| 0 <= j < |u.ls| && Was(u.ls[j], v.ls[i]);
      assert Was(u.ls[j], l);
    }
  }

  /** A listener that is not stopped, or that only lost its worker, changed in place. */
  lemma PutStill(ls: seq<Listener>, m: Listener, l: Listener)
    requires Distinct(ls) && m in ls && l.pid == m.pid && l.root == m.root && l.stops == m.stops &&
      (l.worker.Some? ==> l.job)
    requires m.stops == 0 || Was(m, l)
    ensures Distinct(Put(ls, l))
    ensures forall x :: x in Put(ls, l) && x.stops > 0 ==> WasAmong(ls, x)
  {
    hide Put;
    var k :| 0 <= k < |ls| && ls[k] == m;
    PutOne(ls, k, l);
    forall x | x in Put(ls, l) && x.stops > 0 ensures WasAmong(ls, x) {
      var i :| 0 <= i < |ls| && Put(ls, l)[i] == x;
      assert Was(ls[i], x);
    }
  }

  lemma PutOne(ls: seq<Listener>, k: nat, l: Listener)
    requires Distinct(ls) && k < |ls| && ls[k].pid == l.pid
    ensures Put(ls, l) == ls[k := l]
  {
    hide Put;
  }

  lemma {:induction false} WithoutDistinct(ls: seq<Listener>, pid: Pid)
    requires Distinct(ls)
    ensures Distinct(Without(ls, pid))
  {
    if ls != [] {
      WithoutDistinct(ls[1..], pid);
      var r := Without(ls[1..], pid);
      forall j | 0 <= j < |r| ensures r[j].pid != ls[0].pid && r[j].root != ls[0].root {
        assert r[j] in ls[1..];
      }
    }
  }

  lemma HappenStill(w: World, x: Env)
    requires Distinct(w.ls)
    ensures Distinct(Happen(w, x).ls) && Still(w, Happen(w, x))
  {
    var v := Happen(w, x);
    if v.ls == w.ls {
      StillSame(w, v);
    } else {
      match x
      case Take(pid, e) => PutStill(w.ls, Find(w.ls, pid).value, Find(w.ls, pid).value.(job := true));
      case StartWorker(pid, id) => PutStill(w.ls, Find(w.ls, pid).value, Find(w.ls, pid).value.(worker := Some(id)));
      case Finish(pid, e) => PutStill(w.ls, Find(w.ls, pid).value,
        Find(w.ls, pid).value.(job := false, worker := None));
      case LoseWorker(pid) => PutStill(w.ls, Find(w.ls, pid).value, Find(w.ls, pid).value.(worker := None));
      case Exit(pid) =>
        WithoutDistinct(w.ls, pid);
        forall l | l in v.ls && l.stops > 0 ensures WasAmong(w.ls, l) { WasSelf(w.ls, l); }
      case Spawn(pid, root) =>
        forall l | l in v.ls && l.stops > 0 ensures WasAmong(w.ls, l) { WasSelf(w.ls, l); }
      case _ =>
    }
  }

  lemma HappenHomed(w: World, x: Env)
    requires Homed(w)
    ensures Homed(Happen(w, x))
    ensures forall p :: p in w.home ==> p in Happen(w, x).home && Happen(w, x).home[p] == w.home[p]
  {
    hide Put;
    hide Without;
    hide Find;
    var v := Happen(w, x);
    match x
    case Exit(pid) =>
      forall i | 0 <= i < |v.ls| ensures v.ls[i].pid in v.home && v.home[v.ls[i].pid] == v.ls[i].root {
        assert v.ls[i] in w.ls;
      }
    case _ =>
  }

  /** Whatever happens: stopped listeners stay as they were, none is newly stopped, and the machine stays real. */
  lemma {:induction false} HappenAllStill(w: World, xs: seq<Env>)
    requires Real(w)
    ensures Real(HappenAll(w, xs)) && Still(w, HappenAll(w, xs))
    ensures forall p :: p in w.home ==> p in HappenAll(w, xs).home && HappenAll(w, xs).home[p] == w.home[p]
    decreases |xs|
  {
    hide Happen;
    if xs == [] {
      StillSame(w, w);
    } else {
      HappenAllStill(w, xs[..|xs| - 1]);
      var u := HappenAll(w, xs[..|xs| - 1]);
      HappenStill(u, xs[|xs| - 1]);
      HappenHomed(u, xs[|xs| - 1]);
      StillThen(w, u, Happen(u, xs[|xs| - 1]));
    }
  }

  lemma {:induction false} FindsIt(ls: seq<Listener>, i: nat)
    requires Distinct(ls) && i < |ls|
    ensures Find(ls, ls[i].pid) == Some(ls[i])
  {
    if i > 0 {
      assert ls[0].pid != ls[i].pid;
      FindsIt(ls[1..], i - 1);
    }
  }

  /**
   * The machine is free: a listener that is not stopped may take a job, start its worker, and finish it, and its log
   * says so each time.
   */
  lemma MachineCan(w: World, k: nat, e: Entry, id: nat)
    requires Real(w) && k < |w.ls| && w.ls[k].stops == 0
    ensures var l := w.ls[k];
            && (!l.job && e.mark == Some(Job) ==>
                  Happen(w, Take(l.pid, e)) == Write(w, l.root, e).(ls := w.ls[k := l.(job := true)]))
            && (l.job && l.worker.None? ==>
                  Happen(w, StartWorker(l.pid, id)) == w.(ls := w.ls[k := l.(worker := Some(id))]))
            && (l.job && e.mark == Some(Idle) ==>
                  Happen(w, Finish(l.pid, e)) ==
                  Write(w, l.root, e).(ls := w.ls[k := l.(job := false, worker := None)]))
  {
    var l := w.ls[k];
    FindsIt(w.ls, k);
    PutOne(w.ls, k, l.(job := true));
    PutOne(w.ls, k, l.(worker := Some(id)));
    PutOne(w.ls, k, l.(job := false, worker := None));
    hide Find;
    hide Write;
    hide Without;
    hide Put;
    hide Distinct;
  }

  /** It may log any other line that is true, and lose a worker. */
  lemma MachineMay(w: World, k: nat, e: Entry)
    requires Real(w) && k < |w.ls|
    ensures var l := w.ls[k];
            && (l.stops == 0 && (e.mark.Some? ==> l.job == (e.mark.value == Job)) ==>
                  Happen(w, Say(l.pid, e)) == Write(w, l.root, e))
            && (l.worker.Some? ==> Happen(w, LoseWorker(l.pid)) == w.(ls := w.ls[k := l.(worker := None)]))
  {
    var l := w.ls[k];
    FindsIt(w.ls, k);
    PutOne(w.ls, k, l.(worker := None));
    hide Distinct;
    hide Homed;
    hide Real;
    if l.stops == 0 && (e.mark.Some? ==> l.job == (e.mark.value == Job)) {
      SayIs(w, l, e);
    }
    if l.worker.Some? {
      LoseIs(w, l);
    }
    hide *;
  }

  lemma SayIs(w: World, l: Listener, e: Entry)
    requires Find(w.ls, l.pid) == Some(l) && l.stops == 0 && (e.mark.Some? ==> l.job == (e.mark.value == Job))
    ensures Happen(w, Say(l.pid, e)) == Write(w, l.root, e)
  {
    hide Find;
    hide Write;
  }

  lemma LoseIs(w: World, l: Listener)
    requires Find(w.ls, l.pid) == Some(l) && l.worker.Some?
    ensures Happen(w, LoseWorker(l.pid)) == w.(ls := Put(w.ls, l.(worker := None)))
  {
    hide Find;
    hide Put;
  }

  /** Where a line is written, the log ends with it and nothing else changes. */
  lemma LogGrows(w: World, root: Root, e: Entry)
    ensures var v := Write(w, root, e);
            && v.ls == w.ls && v.home == w.home && EndsWith(v, root, e) && v.logs.Keys == w.logs.Keys + {root}
            && (forall r :: r in w.logs && r != root ==> v.logs[r] == w.logs[r])
            && Full(v, root) == Full(w, root)
  {
  }

  /** And any listener may vanish, and it alone. */
  lemma ListenerMayExit(w: World, k: nat)
    requires Distinct(w.ls) && k < |w.ls|
    ensures forall j :: j in Happen(w, Exit(w.ls[k].pid)).ls <==> j in w.ls && j != w.ls[k]
  {
    forall j | j in w.ls && j.pid == w.ls[k].pid ensures j == w.ls[k] {
      var i :| 0 <= i < |w.ls| && w.ls[i] == j;
    }
  }

  /** The log ends with this line. */
  predicate EndsWith(w: World, root: Root, e: Entry) {
    root in w.logs && var tail := w.logs[root].tail; tail != [] && tail[|tail| - 1] == e
  }

  /** A stopped listener can do none of it. */
  lemma StoppedCannot(w: World, k: nat, e: Entry, id: nat)
    requires Real(w) && k < |w.ls| && w.ls[k].stops > 0
    ensures var pid := w.ls[k].pid;
            Happen(w, Take(pid, e)) == Happen(w, StartWorker(pid, id)) == Happen(w, Finish(pid, e)) ==
            Happen(w, Say(pid, e)) == w
  {
    FindsIt(w.ls, k);
  }

  /** A runner that is not there may start, under a pid that is free and has been nobody else's, over an empty log. */
  lemma RunnerStarts(w: World, pid: Pid, root: Root)
    requires forall i :: 0 <= i < |w.ls| ==> w.ls[i].pid != pid && w.ls[i].root != root
    requires pid in w.home ==> w.home[pid] == root
    ensures var v := Happen(w, Spawn(pid, root));
            && v.ls == w.ls + [Listener(pid, root, 0, false, None)] && root in v.logs && v.logs[root] == Log([], false)
            && !Full(v, root)
  {
  }

  // ------------------------------------------------------------------ jobs and the logs that tell of them

  /** The newest word in the tail of the listener's log is that it has a job. */
  predicate Shows(w: World, l: Listener) {
    && Tail(w, l.root).Some? && LastMark(Tail(w, l.root).value).Some?
    && LastMark(Tail(w, l.root).value).value.mark == Some(Job)
  }

  /** A job no listing shows a worker for: none runs it, or one of those that may be a timed run's own. */
  predicate Unseen(l: Listener, owns: nat -> bool) { l.job && (l.worker.Some? ==> owns(l.worker.value)) }

  /** Any worker at all: only the log counts. */
  function Any(id: nat): bool { true }

  ghost predicate ToldOf(w: World, pid: Pid, owns: nat -> bool) {
    forall i :: 0 <= i < |w.ls| && w.ls[i].pid == pid && Unseen(w.ls[i], owns) ==> Shows(w, w.ls[i])
  }

  /** Every unseen job shows. */
  ghost predicate Told(w: World, owns: nat -> bool) {
    forall i :: 0 <= i < |w.ls| && Unseen(w.ls[i], owns) ==> Shows(w, w.ls[i])
  }

  /**
   * A step that takes no job out of sight: a trim that leaves an unseen job's line in the tail, a worker lost while its
   * job's line is there, or any other step.
   */
  ghost predicate Gentle(h: Happened, owns: nat -> bool) {
    match h.x
    case Trim(root, n) =>
      forall i :: 0 <= i < |h.w.ls| && h.w.ls[i].root == root && Unseen(h.w.ls[i], owns) && Shows(h.w, h.w.ls[i]) ==>
        Shows(Happen(h.w, h.x), h.w.ls[i])
    case LoseWorker(pid) => forall i :: 0 <= i < |h.w.ls| && h.w.ls[i].pid == pid && h.w.ls[i].job ==>
      Shows(h.w, h.w.ls[i])
    case _ => true
  }

  ghost predicate GentleFrom(trace: seq<Happened>, k: nat, owns: nat -> bool) {
    forall i :: k <= i < |trace| ==> Gentle(trace[i], owns)
  }

  lemma MarkAppend(lines: seq<Entry>, e: Entry)
    ensures LastMark(lines + [e]) == if e.mark.Some? then Some(e) else LastMark(lines)
  {
    assert (lines + [e])[..|lines|] == lines;
  }

  /** What a line written to its log does to what shows of a listener. */
  lemma WriteShows(w: World, root: Root, e: Entry, l: Listener)
    ensures l.root != root ==> Shows(Write(w, root, e), l) == Shows(w, l)
    ensures l.root == root && e.mark == Some(Job) ==> Shows(Write(w, root, e), l)
    ensures l.root == root && e.mark.None? ==> Shows(Write(w, root, e), l) == Shows(w, l)
  {
    if root in w.logs {
      MarkAppend(w.logs[root].tail, e);
    } else {
      MarkAppend([], e);
      assert [] + [e] == [e];
    }
    hide LastMark;
  }

  /** Listeners log their jobs: whatever happens, as long as it is gentle, unseen jobs go on showing. */
  lemma HappenTold(w: World, x: Env, pid: Pid, owns: nat -> bool)
    requires Distinct(w.ls) && ToldOf(w, pid, owns) && Gentle(Happened(w, x), owns)
    ensures ToldOf(Happen(w, x), pid, owns)
  {
    hide Put;
    hide Without;
    hide Find;
    hide LastMark;
    var v := Happen(w, x);
    match x
    case Exit(q) =>
      forall i | 0 <= i < |v.ls| && v.ls[i].pid == pid && Unseen(v.ls[i], owns) ensures Shows(v, v.ls[i]) {
        assert v.ls[i] in w.ls;
      }
    case _ =>
      forall i | 0 <= i < |v.ls| && v.ls[i].pid == pid && Unseen(v.ls[i], owns) ensures Shows(v, v.ls[i]) {
        HappenShows(w, x, i, owns);
      }
  }

  lemma HappenShows(w: World, x: Env, i: nat, owns: nat -> bool)
    requires Distinct(w.ls) && Gentle(Happened(w, x), owns) && !x.Exit?
    requires i < |Happen(w, x).ls| && Unseen(Happen(w, x).ls[i], owns)
    requires i < |w.ls| && Unseen(w.ls[i], owns) ==> Shows(w, w.ls[i])
    ensures Shows(Happen(w, x), Happen(w, x).ls[i])
  {
    hide Put;
    hide Without;
    hide Find;
    hide LastMark;
    var v := Happen(w, x);
    assert i < |w.ls| && v.ls[i].root == w.ls[i].root && v.ls[i].pid == w.ls[i].pid;
    match x
    case Take(q, e) =>
      if Find(w.ls, q).Some? { WriteShows(w, Find(w.ls, q).value.root, e, v.ls[i]); }
    case Finish(q, e) =>
      if Find(w.ls, q).Some? { WriteShows(w, Find(w.ls, q).value.root, e, v.ls[i]); }
    case Say(q, e) =>
      var l := Find(w.ls, q);
      if l.Some? {
        WriteShows(w, l.value.root, e, v.ls[i]);
        var j :| 0 <= j < |w.ls| && w.ls[j] == l.value;
        assert j != i ==> w.ls[i].root != l.value.root;
        assert e.mark.None? || e.mark.value == Job || e.mark.value == Idle;
      }
    case _ =>
  }

  lemma {:induction false} HappenAllTold(w: World, xs: seq<Env>, pid: Pid, owns: nat -> bool)
    requires Distinct(w.ls) && ToldOf(w, pid, owns) && GentleFrom(Trace(w, xs), 0, owns)
    ensures Distinct(HappenAll(w, xs).ls) && ToldOf(HappenAll(w, xs), pid, owns)
    decreases |xs|
  {
    hide Happen;
    hide Distinct;
    hide ToldOf;
    hide Gentle;
    if xs != [] {
      var front, n := xs[..|xs| - 1], |xs| - 1;
      assert Trace(w, xs)[..|Trace(w, front)|] == Trace(w, front);
      assert forall i :: 0 <= i < |Trace(w, front)| ==> Trace(w, front)[i] == Trace(w, xs)[i];
      HappenAllTold(w, front, pid, owns);
      var u := HappenAll(w, front);
      assert Trace(w, xs)[|Trace(w, front)|] == Happened(u, xs[n]);
      HappenTold(u, xs[n], pid, owns);
      HappenStill(u, xs[n]);
    }
  }

  // ------------------------------------------------------------------ signals

  /** Every process `pid` is stopped `k` times. */
  function SetStops(w: World, pid: Pid, k: nat): (v: World)
    ensures |v.ls| == |w.ls| && v.logs == w.logs && v.home == w.home
    ensures forall i :: 0 <= i < |w.ls| ==> v.ls[i] == if w.ls[i].pid == pid then w.ls[i].(stops := k) else w.ls[i]
  {
    w.(ls := seq(|w.ls|, i requires 0 <= i < |w.ls| => if w.ls[i].pid == pid then w.ls[i].(stops := k) else w.ls[i]))
  }

  lemma SetStopsReal(w: World, pid: Pid, k: nat)
    requires Real(w)
    ensures Real(SetStops(w, pid, k))
  {
    hide SetStops;
  }

  /** The same logs, and the same listeners but for signals. */
  ghost predicate SameBut(w: World, v: World) {
    && v.logs == w.logs && |v.ls| == |w.ls|
    && forall j :: 0 <= j < |w.ls| ==> v.ls[j] == w.ls[j].(stops := v.ls[j].stops)
  }

  /** Signals change no job and no log. */
  lemma SignalTold(w: World, v: World, pid: Pid, owns: nat -> bool)
    requires SameBut(w, v) && Distinct(w.ls) && ToldOf(w, pid, owns)
    ensures Distinct(v.ls) && ToldOf(v, pid, owns)
  {
    hide LastMark;
    forall i | 0 <= i < |v.ls| && v.ls[i].pid == pid && Unseen(v.ls[i], owns) ensures Shows(v, v.ls[i]) {
      assert Unseen(w.ls[i], owns);
    }
  }
}
