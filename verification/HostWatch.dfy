/**
 * The watch over agent hosts nobody follows (`machine/hostWatch.ts`). The machine's answers are an oracle: the answer
 * to a question depends on how many questions and acts went before it, so every interleaving of process starts and ends
 * is some oracle. What is asked and done is logged in order.
 */
module HostWatching {
  import opened Prelude

  const START_SLACK := 90_000
  const WROTE_SLACK := 5_000
  const KILL_WAIT := 30_000
  const SWEEP_AFTER := 6 * 60 * 60_000
  const ORPHAN_LOOKS := 2
  const STEP := 200

  /** The start time asked of the machine: it could not tell, no such process, or the time. */
  datatype Start = Failed | NoProcess | At(ms: int)

  datatype Identity = Same | Other | Gone | Unknown

  datatype Act =
    | Alive(pid: int, yes: bool)
    | Started(pid: int, start: Start)
    | Slept
    | Killed(pid: int, record: Option<int>)
    | Followed(session: string, yes: bool)
    | Wrote(session: string, at: Option<int>)
    | Clock(now: int)
    | Removed(session: string)
    | Lingers(session: string, on: bool)

  datatype Oracle = Oracle(
    alive: nat -> bool, started: nat -> Start, followed: nat -> bool, wrote: nat -> Option<int>, now: nat -> int)

  /** A result and the log up to it. */
  datatype Told<T> = Told(value: T, log: seq<Act>)

  /** Whether a process that started then is the host that wrote the record; an unreadable record is nobody's. */
  predicate SameHost(record: Option<int>, started: int) {
    record.Some? && record.value - START_SLACK <= started <= record.value + WROTE_SLACK
  }

  // What each operation asks and does.

  function WaitGone(o: Oracle, log: seq<Act>, pid: int, waited: nat, ms: nat): Told<bool>
    decreases if waited < ms then ms - waited else 0
  {
    var yes := o.alive(|log|);
    var asked := log + [Alive(pid, yes)];
    if !yes then Told(true, asked)
    else if waited >= ms then Told(false, asked)
    else WaitGone(o, asked + [Slept], pid, waited + STEP, ms)
  }

  function Identify(o: Oracle, log: seq<Act>, pid: int, record: Option<int>): Told<Identity> {
    var yes := o.alive(|log|);
    var asked := log + [Alive(pid, yes)];
    if !yes then Told(Gone, asked)
    else
      var start := o.started(|asked|);
      var told := asked + [Started(pid, start)];
      match start
      case Failed => Told(Unknown, told)
      case NoProcess =>
        var still := o.alive(|told|);
        Told(if still then Unknown else Gone, told + [Alive(pid, still)])
      case At(ms) => Told(if SameHost(record, ms) then Same else Other, told)
  }

  /** Up to `tries` attempts to identify the process, while the answer is unknown. */
  function Tries(o: Oracle, log: seq<Act>, pid: int, record: Option<int>, tries: nat): Told<Identity>
    decreases tries
  {
    if tries == 0 then Told(Unknown, log)
    else
      var who := Identify(o, log, pid, record);
      if who.value == Unknown then Tries(o, who.log + [Slept], pid, record, tries - 1) else who
  }

  /** Whether the tree is stopped: the process gone, or another program's. */
  function EndTree(o: Oracle, log: seq<Act>, pid: int, record: Option<int>, waitExit: nat): Told<bool> {
    var left := if waitExit > 0 then WaitGone(o, log, pid, 0, waitExit) else Told(false, log);
    if left.value then left
    else
      var who := Tries(o, left.log, pid, record, 3);
      match who.value
      case Gone => Told(true, who.log)
      case Other => Told(true, who.log)
      case Unknown => Told(false, who.log)
      case Same => WaitGone(o, who.log + [Killed(pid, record)], pid, 0, KILL_WAIT)
  }

  datatype HostRecord = HostRecord(protocol: int, pid: int, started: Option<int>)

  datatype Folder = Folder(session: string, record: Option<HostRecord>)

  function StopOrphan(o: Oracle, log: seq<Act>, h: Folder, r: HostRecord): Told<bool> {
    var ended := EndTree(o, log + [Lingers(h.session, true)], r.pid, r.started, 0);
    Told(ended.value, ended.log + (if ended.value then [Removed(h.session)] else []) + [Lingers(h.session, false)])
  }

  function Sweep(o: Oracle, log: seq<Act>, h: Folder): seq<Act> {
    var at := o.wrote(|log|);
    var asked := log + [Wrote(h.session, at)];
    if at.None? then asked + [Removed(h.session)]
    else
      var now := o.now(|asked|);
      asked + [Clock(now)] + if now - at.value < SWEEP_AFTER then [] else [Removed(h.session)]
  }

  /** A folder's turn in a look: the log and the counts after it, and whether it is an orphan's. */
  datatype Visit = Visit(log: seq<Act>, seen: map<string, nat>, orphan: bool)

  function Count(seen: map<string, nat>, session: string): nat { if session in seen then seen[session] else 0 }

  function VisitOrphan(o: Oracle, log: seq<Act>, seen: map<string, nat>, h: Folder, r: HostRecord): Visit {
    var n := Count(seen, h.session) + 1;
    var counted := seen[h.session := n];
    if n < ORPHAN_LOOKS then Visit(log, counted, true)
    else
      var yes := o.followed(|log|);
      var asked := log + [Followed(h.session, yes)];
      if yes then Visit(asked, counted, true)
      else
        var stop := StopOrphan(o, asked, h, r);
        Visit(stop.log, if stop.value then counted - {h.session} else counted, true)
  }

  function VisitFolder(o: Oracle, protocol: int, log: seq<Act>, seen: map<string, nat>, h: Folder): Visit {
    var yes := o.followed(|log|);
    var asked := log + [Followed(h.session, yes)];
    if yes then Visit(asked, seen, false)
    else if h.record.Some? && h.record.value.protocol != protocol then Visit(asked, seen, false)
    else if h.record.Some? && h.record.value.pid != 0 then
      var r := h.record.value;
      var alive := o.alive(|asked|);
      var probed := asked + [Alive(r.pid, alive)];
      if !alive then Visit(Sweep(o, probed, h), seen, false)
      else
        var who := Identify(o, probed, r.pid, r.started);
        match who.value
        case Unknown => Visit(who.log, seen, false)
        case Same => VisitOrphan(o, who.log, seen, h, r)
        case Other => Visit(Sweep(o, who.log, h), seen, false)
        case Gone => Visit(Sweep(o, who.log, h), seen, false)
    else Visit(Sweep(o, asked, h), seen, false)
  }

  /** The folders of a look, one by one: the log, the counts, and the orphans seen. */
  datatype Looked = Looked(log: seq<Act>, seen: map<string, nat>, orphans: set<string>)

  function VisitAll(o: Oracle, protocol: int, log: seq<Act>, seen: map<string, nat>, hs: seq<Folder>): Looked {
    if hs == [] then Looked(log, seen, {})
    else
      var h := hs[|hs| - 1];
      var before := VisitAll(o, protocol, log, seen, hs[..|hs| - 1]);
      var v := VisitFolder(o, protocol, before.log, before.seen, h);
      Looked(v.log, v.seen, if v.orphan then before.orphans + {h.session} else before.orphans)
  }

  function Tick(o: Oracle, protocol: int, log: seq<Act>, seen: map<string, nat>, hs: seq<Folder>): Looked {
    var all := VisitAll(o, protocol, log, seen, hs);
    all.(seen := map s | s in all.seen && s in all.orphans :: all.seen[s])
  }

  class HostWatch {
    const o: Oracle
    const protocol: int
    var log: seq<Act>
    var seen: map<string, nat>

    constructor (o: Oracle, protocol: int)
      ensures this.o == o && this.protocol == protocol && log == [] && seen == map[]
    {
      this.o, this.protocol, log, seen := o, protocol, [], map[];
    }

    method AskAlive(pid: int) returns (yes: bool)
      modifies this`log
      ensures yes == o.alive(|old(log)|) && log == old(log) + [Alive(pid, yes)]
    {
      yes := o.alive(|log|);
      log := log + [Alive(pid, yes)];
    }

    method AwaitGone(pid: int, ms: nat) returns (gone: bool)
      modifies this`log
      ensures Told(gone, log) == WaitGone(o, old(log), pid, 0, ms)
    {
      var waited := 0;
      ghost var from := log;
      var alive := AskAlive(pid);
      while alive
        invariant alive == o.alive(|from|) && log == from + [Alive(pid, alive)]
        invariant WaitGone(o, old(log), pid, 0, ms) == WaitGone(o, from, pid, waited, ms)
        decreases if waited < ms then ms - waited else 0, alive
      {
        if waited >= ms {
          return false;
        }
        log := log + [Slept];
        from := log;
        waited := waited + STEP;
        alive := AskAlive(pid);
      }
      return true;
    }

    method HostIdentity(pid: int, record: Option<int>) returns (who: Identity)
      modifies this`log
      ensures Told(who, log) == Identify(o, old(log), pid, record)
    {
      var alive := AskAlive(pid);
      if !alive {
        return Gone;
      }
      var start := o.started(|log|);
      log := log + [Started(pid, start)];
      if start == Failed {
        return Unknown;
      }
      if start == NoProcess {
        alive := AskAlive(pid);
        return if alive then Unknown else Gone;
      }
      return if SameHost(record, start.ms) then Same else Other;
    }

    method EndHostTree(pid: int, record: Option<int>, waitExit: nat) returns (stopped: bool)
      modifies this`log
      ensures Told(stopped, log) == EndTree(o, old(log), pid, record, waitExit)
    {
      hide Identify;
      hide WaitGone;
      if waitExit > 0 {
        var gone := AwaitGone(pid, waitExit);
        if gone {
          return true;
        }
      }
      ghost var from := log;
      var who, i := Unknown, 0;
      while i < 3 && who == Unknown
        invariant 0 <= i <= 3
        invariant Tries(o, from, pid, record, 3) == if who == Unknown then Tries(o, log, pid, record, 3 - i)
          else Told(who, log)
      {
        who := HostIdentity(pid, record);
        if who == Unknown {
          log := log + [Slept];
        }
        i := i + 1;
      }
      match who {
        case Gone => return true;
        case Other => return true;
        case Unknown => return false;
        case Same =>
          log := log + [Killed(pid, record)];
          stopped := AwaitGone(pid, KILL_WAIT);
      }
    }

    method StopOrphanHost(h: Folder, r: HostRecord)
      modifies this
      ensures var stop := StopOrphan(o, old(log), h, r);
              log == stop.log && seen == if stop.value then old(seen) - {h.session} else old(seen)
    {
      hide EndTree;
      log := log + [Lingers(h.session, true)];
      var stopped := EndHostTree(r.pid, r.started, 0);
      if stopped {
        seen := seen - {h.session};
        log := log + [Removed(h.session)];
      }
      log := log + [Lingers(h.session, false)];
    }

    method SweepFolder(h: Folder)
      modifies this`log
      ensures log == Sweep(o, old(log), h)
    {
      var at := o.wrote(|log|);
      log := log + [Wrote(h.session, at)];
      if at.Some? {
        var now := o.now(|log|);
        log := log + [Clock(now)];
        if now - at.value < SWEEP_AFTER {
          return;
        }
      }
      log := log + [Removed(h.session)];
    }

    method VisitOne(h: Folder) returns (orphan: bool)
      modifies this
      ensures Visit(log, seen, orphan) == VisitFolder(o, protocol, old(log), old(seen), h)
    {
      hide StopOrphan;
      hide Sweep;
      hide Identify;
      orphan := false;
      var followed := o.followed(|log|);
      log := log + [Followed(h.session, followed)];
      if followed || (h.record.Some? && h.record.value.protocol != protocol) {
        return;
      }
      if h.record.Some? && h.record.value.pid != 0 {
        var r := h.record.value;
        var alive := AskAlive(r.pid);
        if alive {
          var who := HostIdentity(r.pid, r.started);
          if who == Unknown {
            return;
          }
          if who == Same {
            orphan := true;
            var looks := Count(seen, h.session) + 1;
            seen := seen[h.session := looks];
            if looks < ORPHAN_LOOKS {
              return;
            }
            followed := o.followed(|log|);
            log := log + [Followed(h.session, followed)];
            if !followed {
              StopOrphanHost(h, r);
            }
            return;
          }
        }
      }
      SweepFolder(h);
    }

    method TickOnce(hs: seq<Folder>) returns (orphans: set<string>)
      modifies this
      ensures Looked(log, seen, orphans) == Tick(o, protocol, old(log), old(seen), hs)
    {
      hide VisitFolder;
      orphans := {};
      for i := 0 to |hs|
        invariant Looked(log, seen, orphans) == VisitAll(o, protocol, old(log), old(seen), hs[..i])
      {
        assert hs[..i + 1][..i] == hs[..i];
        var orphan := VisitOne(hs[i]);
        if orphan {
          orphans := orphans + {hs[i].session};
        }
      }
      assert hs[..|hs|] == hs;
      seen := map s | s in seen && s in orphans :: seen[s];
    }
  }

  // No kill without a fresh identification.

  /** The answers right before entry `i`: its pid is alive, and the recorded host's process. */
  ghost predicate JustIdentified(log: seq<Act>, i: nat)
    requires i < |log| && log[i].Killed?
  {
    && i >= 2 && log[i - 2] == Alive(log[i].pid, true)
    && log[i - 1].Started? && log[i - 1].pid == log[i].pid
    && log[i - 1].start.At? && SameHost(log[i].record, log[i - 1].start.ms)
  }

  /** Every kill follows at once on such answers. */
  ghost predicate Justified(log: seq<Act>) {
    forall i :: 0 <= i < |log| && log[i].Killed? ==> JustIdentified(log, i)
  }

  /** Longer, with no kill, no removal and no question whether a session is followed in what was added. */
  ghost predicate Quiet(log: seq<Act>, more: seq<Act>) {
    && |log| <= |more| && (forall i :: 0 <= i < |log| ==> more[i] == log[i])
    && forall i :: |log| <= i < |more| ==> !more[i].Killed? && !more[i].Removed? && !more[i].Followed?
  }

  lemma QuietKeeps(log: seq<Act>, more: seq<Act>)
    requires Justified(log) && Quiet(log, more)
    ensures Justified(more)
  {
    forall i | 0 <= i < |more| && more[i].Killed? ensures JustIdentified(more, i) {
      assert more[i] == log[i] && JustIdentified(log, i);
    }
  }

  lemma {:induction false} WaitIsQuiet(o: Oracle, log: seq<Act>, pid: int, waited: nat, ms: nat)
    ensures var r := WaitGone(o, log, pid, waited, ms);
            Quiet(log, r.log) && (r.value ==> r.log != [] && r.log[|r.log| - 1] == Alive(pid, false))
    decreases if waited < ms then ms - waited else 0
  {
    var yes := o.alive(|log|);
    if yes && waited < ms {
      WaitIsQuiet(o, log + [Alive(pid, yes)] + [Slept], pid, waited + STEP, ms);
    }
  }

  /** What an identification ends with. */
  ghost predicate Shows(log: seq<Act>, pid: int, record: Option<int>, who: Identity) {
    match who
    case Unknown => true
    case Gone => log != [] && log[|log| - 1] == Alive(pid, false)
    case Same => AliveSince(log, pid) && SameHost(record, log[|log| - 1].start.ms)
    case Other => AliveSince(log, pid) && !SameHost(record, log[|log| - 1].start.ms)
  }

  ghost predicate AliveSince(log: seq<Act>, pid: int) {
    |log| >= 2 && log[|log| - 2] == Alive(pid, true) && log[|log| - 1].Started? && log[|log| - 1].pid == pid &&
      log[|log| - 1].start.At?
  }

  lemma IdentifyShows(o: Oracle, log: seq<Act>, pid: int, record: Option<int>)
    ensures var r := Identify(o, log, pid, record);
            Quiet(log, r.log) && Shows(r.log, pid, record, r.value)
  {
  }

  lemma {:induction false} TriesShow(o: Oracle, log: seq<Act>, pid: int, record: Option<int>, tries: nat)
    ensures var r := Tries(o, log, pid, record, tries);
            Quiet(log, r.log) && Shows(r.log, pid, record, r.value)
    decreases tries
  {
    if tries > 0 {
      IdentifyShows(o, log, pid, record);
      var who := Identify(o, log, pid, record);
      hide Identify;
      if who.value == Unknown {
        TriesShow(o, who.log + [Slept], pid, record, tries - 1);
      }
    }
  }

  /** The tree is called stopped only when the pid no longer runs, or runs another program. */
  ghost predicate ShowsGone(log: seq<Act>, pid: int, record: Option<int>) {
    Shows(log, pid, record, Gone) || Shows(log, pid, record, Other)
  }

  /**
   * An attempt on one host: nothing removed, nobody asked about followers, no other process killed, no kill
   * unjustified.
   */
  ghost predicate Attempt(log: seq<Act>, more: seq<Act>, pid: int, record: Option<int>) {
    && |log| <= |more| && (forall i :: 0 <= i < |log| ==> more[i] == log[i])
    && (forall i :: |log| <= i < |more| ==> !more[i].Removed? && !more[i].Followed?)
    && (forall i :: |log| <= i < |more| && more[i].Killed? ==> more[i] == Killed(pid, record))
    && (Justified(log) ==> Justified(more))
  }

  lemma QuietAttempt(log: seq<Act>, more: seq<Act>, pid: int, record: Option<int>)
    requires Quiet(log, more)
    ensures Attempt(log, more, pid, record)
  {
    if Justified(log) {
      QuietKeeps(log, more);
    }
  }

  lemma KillAttempt(log: seq<Act>, pid: int, record: Option<int>)
    requires Shows(log, pid, record, Same)
    ensures Attempt(log, log + [Killed(pid, record)], pid, record)
  {
    var more := log + [Killed(pid, record)];
    if Justified(log) {
      forall i | 0 <= i < |more| && more[i].Killed? ensures JustIdentified(more, i) {
        assert i < |log| ==> more[i] == log[i] && JustIdentified(log, i);
      }
    }
  }

  lemma AttemptTwice(a: seq<Act>, b: seq<Act>, c: seq<Act>, pid: int, record: Option<int>)
    requires Attempt(a, b, pid, record) && Attempt(b, c, pid, record)
    ensures Attempt(a, c, pid, record)
  {
    hide Justified;
  }

  lemma EndTreeShows(o: Oracle, log: seq<Act>, pid: int, record: Option<int>, waitExit: nat)
    ensures var r := EndTree(o, log, pid, record, waitExit);
            Attempt(log, r.log, pid, record) && (r.value ==> ShowsGone(r.log, pid, record))
  {
    hide Attempt;
    hide WaitGone;
    hide Tries;
    var left := if waitExit > 0 then WaitGone(o, log, pid, 0, waitExit) else Told(false, log);
    if waitExit > 0 {
      WaitIsQuiet(o, log, pid, 0, waitExit);
    } else {
      assert Quiet(log, log);
    }
    QuietAttempt(log, left.log, pid, record);
    if !left.value {
      TriesShow(o, left.log, pid, record, 3);
      var who := Tries(o, left.log, pid, record, 3);
      QuietAttempt(left.log, who.log, pid, record);
      AttemptTwice(log, left.log, who.log, pid, record);
      if who.value == Same {
        var killed := who.log + [Killed(pid, record)];
        KillAttempt(who.log, pid, record);
        AttemptTwice(log, who.log, killed, pid, record);
        WaitIsQuiet(o, killed, pid, 0, KILL_WAIT);
        var waited := WaitGone(o, killed, pid, 0, KILL_WAIT);
        QuietAttempt(killed, waited.log, pid, record);
        AttemptTwice(log, killed, waited.log, pid, record);
      }
    }
  }

  /**
   * The log of a stop: an attempt on this host alone, then the folder's removal exactly when the process was shown to
   * be gone or another program's. After a failed stop the folder stays.
   */
  lemma FailedStopKeepsFolder(o: Oracle, log: seq<Act>, h: Folder, r: HostRecord) returns (tried: seq<Act>)
    ensures var stop := StopOrphan(o, log, h, r);
            && Attempt(log, tried, r.pid, r.started)
            && (stop.value ==> ShowsGone(tried, r.pid, r.started))
            && stop.log == tried + (if stop.value then [Removed(h.session)] else []) + [Lingers(h.session, false)]
  {
    hide EndTree;
    hide ShowsGone;
    hide Attempt;
    var begun := log + [Lingers(h.session, true)];
    assert Quiet(log, begun);
    QuietAttempt(log, begun, r.pid, r.started);
    EndTreeShows(o, begun, r.pid, r.started, 0);
    tried := EndTree(o, begun, r.pid, r.started, 0).log;
    AttemptTwice(log, begun, tried, r.pid, r.started);
  }

  // A whole look.

  /** What a look may do for one folder: no kill unjustified, and none but of this orphan, seen by the last look too. */
  ghost predicate Proper(log: seq<Act>, more: seq<Act>, seen: map<string, nat>, h: Folder, orphan: bool) {
    && |log| <= |more| && (forall i :: 0 <= i < |log| ==> more[i] == log[i])
    && (Justified(log) ==> Justified(more))
    && forall i :: |log| <= i < |more| && more[i].Killed? ==>
      orphan && h.session in seen && h.record.Some? && more[i] == Killed(h.record.value.pid, h.record.value.started)
  }

  lemma QuietProper(log: seq<Act>, more: seq<Act>, seen: map<string, nat>, h: Folder, orphan: bool)
    requires |log| <= |more| && (forall i :: 0 <= i < |log| ==> more[i] == log[i])
    requires forall i :: |log| <= i < |more| ==> !more[i].Killed?
    ensures Proper(log, more, seen, h, orphan)
  {
  }

  lemma StopProper(log: seq<Act>, more: seq<Act>, seen: map<string, nat>, h: Folder)
    requires h.record.Some? && Attempt(log, more, h.record.value.pid, h.record.value.started) && h.session in seen
    ensures Proper(log, more, seen, h, true)
  {
    hide Justified;
  }

  lemma ProperOn(a: seq<Act>, b: seq<Act>, c: seq<Act>, seen: map<string, nat>, h: Folder, orphan: bool)
    requires Proper(a, b, seen, h, orphan) && Proper(b, c, seen, h, orphan)
    ensures Proper(a, c, seen, h, orphan)
  {
    hide Justified;
  }

  lemma OrphanVisitProper(o: Oracle, log: seq<Act>, seen: map<string, nat>, h: Folder, r: HostRecord)
    requires h.record == Some(r)
    ensures var v := VisitOrphan(o, log, seen, h, r);
            Proper(log, v.log, seen, h, true) && v.orphan
  {
    hide StopOrphan;
    hide Proper;
    var yes := o.followed(|log|);
    var asked := log + [Followed(h.session, yes)];
    QuietProper(log, log, seen, h, true);
    QuietProper(log, asked, seen, h, true);
    if Count(seen, h.session) + 1 >= ORPHAN_LOOKS && !yes {
      var stop := StopOrphan(o, asked, h, r);
      var tried := FailedStopKeepsFolder(o, asked, h, r);
      StopProper(asked, tried, seen, h);
      QuietProper(tried, stop.log, seen, h, true);
      ProperOn(log, asked, tried, seen, h, true);
      ProperOn(log, tried, stop.log, seen, h, true);
    }
  }

  lemma VisitProper(o: Oracle, protocol: int, log: seq<Act>, seen: map<string, nat>, h: Folder)
    ensures var v := VisitFolder(o, protocol, log, seen, h);
            Proper(log, v.log, seen, h, v.orphan)
  {
    hide VisitOrphan;
    hide Proper;
    hide Identify;
    var yes := o.followed(|log|);
    var asked := log + [Followed(h.session, yes)];
    QuietProper(log, asked, seen, h, false);
    SweepProper(o, asked, seen, h);
    ProperOn(log, asked, Sweep(o, asked, h), seen, h, false);
    if h.record.Some? {
      var r := h.record.value;
      var alive := o.alive(|asked|);
      var probed := asked + [Alive(r.pid, alive)];
      QuietProper(log, probed, seen, h, false);
      SweepProper(o, probed, seen, h);
      ProperOn(log, probed, Sweep(o, probed, h), seen, h, false);
      IdentifyShows(o, probed, r.pid, r.started);
      var who := Identify(o, probed, r.pid, r.started);
      QuietProper(log, who.log, seen, h, false);
      QuietProper(log, who.log, seen, h, true);
      SweepProper(o, who.log, seen, h);
      ProperOn(log, who.log, Sweep(o, who.log, h), seen, h, false);
      OrphanVisitProper(o, who.log, seen, h, r);
      ProperOn(log, who.log, VisitOrphan(o, who.log, seen, h, r).log, seen, h, true);
    }
  }

  lemma SweepProper(o: Oracle, log: seq<Act>, seen: map<string, nat>, h: Folder)
    ensures Proper(log, Sweep(o, log, h), seen, h, false)
  {
    hide Proper;
    QuietProper(log, Sweep(o, log, h), seen, h, false);
  }

  /** From entry `i` on, the log shows the folder unfollowed and its process alive and identified as its host. */
  ghost predicate Saw(log: seq<Act>, i: nat, h: Folder) {
    && i + 3 < |log| && h.record.Some? && log[i] == Followed(h.session, false)
    && log[i + 1] == log[i + 2] == Alive(h.record.value.pid, true)
    && log[i + 3].Started? && log[i + 3].pid == h.record.value.pid
    && log[i + 3].start.At? && SameHost(h.record.value.started, log[i + 3].start.ms)
  }

  /** A folder counts as an orphan's only when its visit saw so, and a visit touches no other folder's count. */
  lemma VisitSaw(o: Oracle, protocol: int, log: seq<Act>, seen: map<string, nat>, h: Folder)
    ensures var v := VisitFolder(o, protocol, log, seen, h);
            && (v.orphan ==> Saw(v.log, |log|, h) && h.record.value.protocol == protocol)
            && forall s :: s != h.session ==> (s in v.seen <==> s in seen)
  {
    VisitProper(o, protocol, log, seen, h);
    hide Sweep;
    hide StopOrphan;
    if h.record.Some? {
      var r := h.record.value;
      var probed := log + [Followed(h.session, false)] + [Alive(r.pid, true)];
      var who := Identify(o, probed, r.pid, r.started);
      OrphanVisitProper(o, who.log, seen, h, r);
      IdentifyShows(o, probed, r.pid, r.started);
    }
  }

  predicate OnePerSession(hs: seq<Folder>) {
    forall i, j :: 0 <= i < j < |hs| ==> hs[i].session != hs[j].session
  }

  ghost predicate HasFolder(hs: seq<Folder>, s: string) { exists h :: h in hs && h.session == s }

  /** A kill of this look: of a folder's orphan, counted by the look before and seen by this one. */
  ghost predicate KillOf(a: Act, hs: seq<Folder>, seen: map<string, nat>, orphans: set<string>) {
    exists h :: h in hs && h.record.Some? && a == Killed(h.record.value.pid, h.record.value.started) &&
      h.session in seen && h.session in orphans
  }

  ghost predicate LookProper(log: seq<Act>, seen: map<string, nat>, hs: seq<Folder>, r: Looked) {
    && |log| <= |r.log| && (forall i :: 0 <= i < |log| ==> r.log[i] == log[i])
    && (Justified(log) ==> Justified(r.log))
    && (forall i :: |log| <= i < |r.log| && r.log[i].Killed? ==> KillOf(r.log[i], hs, seen, r.orphans))
    && (forall s :: !HasFolder(hs, s) ==> (s in r.seen <==> s in seen))
    && (forall s :: s in r.orphans ==> SawOne(log, hs, r.log, s))
  }

  ghost predicate SawOne(log: seq<Act>, hs: seq<Folder>, more: seq<Act>, s: string) {
    exists h, i :: h in hs && h.session == s && |log| <= i && Saw(more, i, h)
  }

  lemma VisitKeepsLook(log: seq<Act>, seen: map<string, nat>, hs: seq<Folder>, r: Looked, h: Folder, v: Visit)
    requires LookProper(log, seen, hs, r) && !HasFolder(hs, h.session)
    requires Proper(r.log, v.log, r.seen, h, v.orphan)
    requires v.orphan ==> Saw(v.log, |r.log|, h)
    requires forall s :: s != h.session ==> (s in v.seen <==> s in r.seen)
    ensures LookProper(log, seen, hs + [h],
      Looked(v.log, v.seen, if v.orphan then r.orphans + {h.session} else r.orphans))
  {
    hide Justified;
    hide Saw;
    var all := hs + [h];
    var orphans := if v.orphan then r.orphans + {h.session} else r.orphans;
    assert h in all;
    forall i | |log| <= i < |v.log| && v.log[i].Killed? ensures KillOf(v.log[i], all, seen, orphans) {
      if i < |r.log| {
        assert KillOf(r.log[i], hs, seen, r.orphans);
        var g :| g in hs && g.record.Some? && r.log[i] == Killed(g.record.value.pid, g.record.value.started) &&
          g.session in seen && g.session in r.orphans;
        assert g in all;
      }
    }
    forall s | !HasFolder(all, s) ensures s in v.seen <==> s in seen {
      assert s != h.session;
      assert forall g :: g in hs ==> g in all;
      assert !HasFolder(hs, s);
    }
    forall s | s in orphans ensures SawOne(log, all, v.log, s) {
      if s in r.orphans {
        var g, i :| g in hs && g.session == s && |log| <= i && Saw(r.log, i, g);
        SawLater(r.log, v.log, i, g);
        assert g in all;
      }
    }
  }

  lemma SawLater(log: seq<Act>, more: seq<Act>, i: nat, h: Folder)
    requires Saw(log, i, h) && |log| <= |more| && forall j :: 0 <= j < |log| ==> more[j] == log[j]
    ensures Saw(more, i, h)
  {
  }

  lemma {:induction false} LookIsProper(o: Oracle, protocol: int, log: seq<Act>, seen: map<string, nat>,
                                        hs: seq<Folder>)
    requires OnePerSession(hs)
    ensures LookProper(log, seen, hs, VisitAll(o, protocol, log, seen, hs))
  {
    if hs == [] {
      LookStarts(log, seen);
    } else {
      var front, h := hs[..|hs| - 1], hs[|hs| - 1];
      var r := VisitAll(o, protocol, log, seen, front);
      assert OnePerSession(front) && !HasFolder(front, h.session);
      hide *;
      LookIsProper(o, protocol, log, seen, front);
      VisitProper(o, protocol, r.log, r.seen, h);
      VisitSaw(o, protocol, r.log, r.seen, h);
      assert hs == front + [h];
      VisitKeepsLook(log, seen, front, r, h, VisitFolder(o, protocol, r.log, r.seen, h));
      VisitsGrow(o, protocol, log, seen, front, h);
    }
  }

  lemma LookStarts(log: seq<Act>, seen: map<string, nat>)
    ensures LookProper(log, seen, [], Looked(log, seen, {}))
  {
  }

  lemma VisitsGrow(o: Oracle, protocol: int, log: seq<Act>, seen: map<string, nat>, front: seq<Folder>, h: Folder)
    ensures var r := VisitAll(o, protocol, log, seen, front);
            var v := VisitFolder(o, protocol, r.log, r.seen, h);
            VisitAll(o, protocol, log, seen, front + [h]) ==
            Looked(v.log, v.seen, if v.orphan then r.orphans + {h.session} else r.orphans)
  {
    hide VisitFolder;
    assert (front + [h])[..|front|] == front;
  }

  // Runs of looks, from a fresh daemon.

  function After(o: Oracle, protocol: int, looks: seq<seq<Folder>>): Looked {
    if looks == [] then Looked([], map[], {})
    else
      var before := After(o, protocol, looks[..|looks| - 1]);
      Tick(o, protocol, before.log, before.seen, looks[|looks| - 1])
  }

  ghost predicate Listings(looks: seq<seq<Folder>>) {
    forall i :: 0 <= i < |looks| ==> OnePerSession(looks[i])
  }

  lemma CountedWasSeen(o: Oracle, protocol: int, looks: seq<seq<Folder>>, s: string)
    requires s in After(o, protocol, looks).seen
    ensures looks != [] && s in After(o, protocol, looks).orphans
  {
  }

  /**
   * A kill at a look is of a session whose folder this look and the look right before both saw as an orphan's:
   * unfollowed, and the process its record then named alive and identified as its host.
   */
  lemma TwoLooksBeforeAKill(o: Oracle, protocol: int, looks: seq<seq<Folder>>, i: nat) returns (h: Folder)
    requires Listings(looks) && looks != []
    requires var before := After(o, protocol, looks[..|looks| - 1]);
             var now := After(o, protocol, looks);
             |before.log| <= i < |now.log| && now.log[i].Killed?
    ensures h in looks[|looks| - 1] && h.record.Some?
    ensures After(o, protocol, looks).log[i] == Killed(h.record.value.pid, h.record.value.started)
    ensures h.session in After(o, protocol, looks).orphans
    ensures |looks| > 1 && h.session in After(o, protocol, looks[..|looks| - 1]).orphans
  {
    var front, hs := looks[..|looks| - 1], looks[|looks| - 1];
    var before, now := After(o, protocol, front), After(o, protocol, looks);
    hide VisitAll;
    LookIsProper(o, protocol, before.log, before.seen, hs);
    hide After;
    assert KillOf(now.log[i], hs, before.seen, now.orphans);
    h :| h in hs && h.record.Some? && now.log[i] == Killed(h.record.value.pid, h.record.value.started) &&
      h.session in before.seen && h.session in now.orphans;
    CountedWasSeen(o, protocol, front, h.session);
  }

  /** What it means that a look saw an orphan. */
  lemma OrphanWasSeen(o: Oracle, protocol: int, looks: seq<seq<Folder>>, s: string)
    requires Listings(looks) && s in After(o, protocol, looks).orphans
    ensures looks != []
    ensures SawOne(After(o, protocol, looks[..|looks| - 1]).log, looks[|looks| - 1], After(o, protocol, looks).log, s)
  {
    var front := looks[..|looks| - 1];
    var before := After(o, protocol, front);
    LookIsProper(o, protocol, before.log, before.seen, looks[|looks| - 1]);
  }

  /** No run reaches a kill without an identification of the pid just before it. */
  lemma {:induction false} EveryKillJustified(o: Oracle, protocol: int, looks: seq<seq<Folder>>)
    requires Listings(looks)
    ensures Justified(After(o, protocol, looks).log)
  {
    if looks != [] {
      var front := looks[..|looks| - 1];
      EveryKillJustified(o, protocol, front);
      var before := After(o, protocol, front);
      LookIsProper(o, protocol, before.log, before.seen, looks[|looks| - 1]);
      hide VisitAll;
      hide Justified;
    }
  }
}
