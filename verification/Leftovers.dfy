/**
 * The leftover reaper's look (`machine/leftovers.ts`, LeftoverReaper.run): which of the processes workers left behind
 * are ended, with the clocks and counts it keeps from look to look.
 */
module Leftovers {
  import opened Prelude
  import Tree = ProcessTree

  const MIN := 60_000
  const DONE_GRACE := 2 * MIN
  const STOPPED_GRACE := 10 * MIN
  const WAKE_GRACE := 10 * MIN
  const ORPHAN_GRACE := 10 * MIN
  const STUCK_RETRY := 60 * MIN
  const IDLE_CPU := 2_000
  const LOOKS := 2

  /** A process across looks: its pid and command line. */
  type Id = (int, string)

  /**
   * What a look learns of a process that may be a leftover: the session it names (`viaArg`: by an argument alone),
   * whether it is a build server, whether its starter runs, whether a remote lease holds its slot or its sandbox has a
   * live worker, whether its start time is known, and its CPU time.
   */
  datatype Claim = Claim(
    session: Option<string>, viaArg: bool, server: bool, starter: bool, leased: bool, sandboxLive: bool, born: bool,
      cpu: Option<int>)

  datatype Candidate = Candidate(p: Tree.Proc, claim: Claim)

  function IdOf(c: Candidate): Id { (c.p.pid, c.p.cmd) }

  /** One look. `live` and `liveLater` are the live sessions when the clocks are set and when the verdicts are given. */
  datatype Look = Look(
    now: int, procs: seq<Tree.Proc>, editors: seq<int>, self: set<int>, guarded: set<int>, claims: map<int, Claim>,
    live: set<string>, liveLater: set<string>, resumable: set<string>, wakeAt: map<string, int>,
    ready: bool, pauseEnds: bool)

  datatype Seen = Seen(n: nat, orphanSince: Option<int>, cpu: Option<int>)

  const UNSEEN := Seen(0, None, None)

  datatype Memory = Memory(stopped: map<string, int>, looks: map<Id, Seen>, stuck: map<Id, int>)

  // Verdicts.

  predicate SessionEnds(live: bool, resumable: bool, wakeAt: Option<int>, stoppedSince: int, now: int) {
    var after := stoppedSince + if resumable then STOPPED_GRACE else DONE_GRACE;
    var wake := if wakeAt.Some? then wakeAt.value + WAKE_GRACE else 0;
    !live && now >= Max(after, wake)
  }

  predicate Owned(k: Claim) { k.starter || k.leased || k.sandboxLive }

  predicate OrphanEnds(k: Claim, firstSeen: int, now: int) { !Owned(k) && now >= firstSeen + ORPHAN_GRACE }

  function WakeOf(l: Look, s: string): Option<int> { if s in l.wakeAt then Some(l.wakeAt[s]) else None }

  function OrphanSince(l: Look, k: Claim, was: Option<int>): Option<int> {
    if k.session.Some? then was else if Owned(k) then None else if was.Some? then was else Some(l.now)
  }

  /** The entry a look leaves for a candidate. */
  function NextSeen(l: Look, k: Claim, seen: Seen): Seen {
    Seen(seen.n + 1, OrphanSince(l, k, seen.orphanSince), k.cpu)
  }

  predicate Ends(l: Look, stopped: map<string, int>, c: Candidate, seen: Seen) {
    var k := c.claim;
    match k.session
    case Some(s) =>
      && SessionEnds(s in l.liveLater, s in l.resumable, WakeOf(l, s), if s in stopped then stopped[s]
        else l.now, l.now)
      && !(k.viaArg && k.starter)
    case None =>
      var since := OrphanSince(l, k, seen.orphanSince);
      OrphanEnds(k, if since.Some? then since.value else l.now, l.now)
  }

  predicate Busy(k: Claim, seen: Seen) {
    k.server && (seen.cpu.None? || k.cpu.None? || k.cpu.value - seen.cpu.value >= IDLE_CPU)
  }

  /** Whether the look ends the candidate. */
  predicate Doomed(l: Look, stopped: map<string, int>, stuck: map<Id, int>, c: Candidate, seen: Seen) {
    && (l.pauseEnds || (Ends(l, stopped, c, seen) && !Busy(c.claim, seen) && l.ready))
    && seen.n + 1 >= LOOKS && c.claim.born
    && !(IdOf(c) in stuck && l.now - stuck[IdOf(c)] < STUCK_RETRY)
  }

  // What a look makes of the memory.

  function SeenIn(looks: map<Id, Seen>, id: Id): Seen { if id in looks then looks[id] else UNSEEN }

  function Sessions(cands: seq<Candidate>): set<string> {
    set c | c in cands && c.claim.session.Some? :: c.claim.session.value
  }

  function Clocks(l: Look, stopped: map<string, int>, sessions: set<string>): map<string, int> {
    map s | s in sessions && s !in l.live :: if s in stopped then stopped[s] else l.now
  }

  predicate Distinct(cands: seq<Candidate>) {
    forall i, j :: 0 <= i < j < |cands| ==> IdOf(cands[i]) != IdOf(cands[j])
  }

  function Ids(cands: seq<Candidate>): set<Id> { set c | c in cands :: IdOf(c) }

  /** The memory after a look: the clocks of its sessions, the entries of its candidates, the stuck it still sees. */
  function Remember(l: Look, cands: seq<Candidate>, m: Memory): Memory {
    Memory(Clocks(l, m.stopped, Sessions(cands)), Entries(l, Ids(cands), m.looks), Restrict(m.stuck, Ids(cands)))
  }

  function Entries(l: Look, ids: set<Id>, looks: map<Id, Seen>): map<Id, Seen> {
    map id | id in ids && id.0 in l.claims :: NextSeen(l, l.claims[id.0], SeenIn(looks, id))
  }

  function Restrict<K, V>(m: map<K, V>, keys: set<K>): map<K, V> { map k | k in m && k in keys :: m[k] }

  lemma RestrictEntries(l: Look, ids: set<Id>, looks: map<Id, Seen>, counted: map<Id, Seen>)
    requires forall id :: id in ids ==>
      id.0 in l.claims && id in counted && counted[id] == NextSeen(l, l.claims[id.0], SeenIn(looks, id))
    ensures Restrict(counted, ids) == Entries(l, ids, looks)
  {
    hide NextSeen;
    hide SeenIn;
  }

  lemma RestrictClocks(l: Look, sessions: set<string>, stopped: map<string, int>, timed: map<string, int>)
    requires forall x :: x in sessions ==>
      (x in timed <==> x !in l.live) && (x in timed ==> timed[x] == if x in stopped then stopped[x] else l.now)
    ensures Restrict(timed, sessions) == Clocks(l, stopped, sessions)
  {
  }

  predicate DoomedBy(l: Look, m: Memory, c: Candidate) { Doomed(l, m.stopped, m.stuck, c, SeenIn(m.looks, IdOf(c))) }

  function Pick(l: Look, m: Memory, cands: seq<Candidate>): seq<Candidate> {
    if cands == [] then []
    else
      var c := cands[|cands| - 1];
      Pick(l, m, cands[..|cands| - 1]) + if DoomedBy(l, m, c) then [c] else []
  }

  /** The candidates a look ends, judged by the clocks it has just set. */
  function Choose(l: Look, cands: seq<Candidate>, m: Memory): seq<Candidate> {
    Pick(l, m.(stopped := Clocks(l, m.stopped, Sessions(cands))), cands)
  }

  lemma {:induction false} PickIs(l: Look, m: Memory, cands: seq<Candidate>)
    ensures forall c :: c in Pick(l, m, cands) <==> c in cands && DoomedBy(l, m, c)
  {
    hide DoomedBy;
    if cands != [] {
      PickIs(l, m, cands[..|cands| - 1]);
      assert cands == cands[..|cands| - 1] + [cands[|cands| - 1]];
    }
  }

  lemma {:induction false} PickSame(l: Look, m: Memory, m': Memory, cands: seq<Candidate>)
    requires forall c :: c in cands ==> DoomedBy(l, m, c) == DoomedBy(l, m', c)
    ensures Pick(l, m, cands) == Pick(l, m', cands)
  {
    hide DoomedBy;
    if cands != [] {
      PickSame(l, m, m', cands[..|cands| - 1]);
      assert cands[|cands| - 1] in cands;
    }
  }

  /** A verdict reads the clock of its own session only. */
  lemma DoomedReadsOwnClock(l: Look, m: Memory, m': Memory, c: Candidate)
    requires m'.stuck == m.stuck && m'.looks == m.looks
    requires c.claim.session.Some? ==>
      var x := c.claim.session.value;
      (x in m.stopped <==> x in m'.stopped) && (x in m.stopped ==> m.stopped[x] == m'.stopped[x])
    ensures DoomedBy(l, m, c) == DoomedBy(l, m', c)
  {
  }

  // The candidates of a look.

  ghost predicate UnderEditor(l: Look, pid: int) { exists e :: e in l.editors && Tree.Reaches(l.procs, e, pid) }

  /** A process that names a protected folder started it, with none of the daemon and its parents in between. */
  ghost predicate UnderGuarded(l: Look, pid: int) {
    exists g :: g in l.guarded && g in Tree.Pids(l.procs) && Tree.ReachesPast(l.procs, g, pid, l.self)
  }

  /** The daemon and its parents alone, and the trees of interactive editors and guarded processes. */
  ghost predicate Spared(l: Look, pid: int) { pid in l.self || UnderEditor(l, pid) || UnderGuarded(l, pid) }

  /** The candidates of a look: each process of the listing with a claim and not spared, once. */
  ghost predicate AreCandidates(l: Look, cands: seq<Candidate>) {
    && Distinct(cands)
    && (forall c :: c in cands ==>
          c.p in l.procs && c.p.pid > 0 && c.p.pid in l.claims && c.claim == l.claims[c.p.pid] && !Spared(l, c.p.pid))
    && (forall p :: p in l.procs && p.pid > 0 && p.pid in l.claims && !Spared(l, p.pid) ==>
      Candidate(p, l.claims[p.pid]) in cands)
  }

  predicate OnePerPid(procs: seq<Tree.Proc>) {
    forall i, j :: 0 <= i < j < |procs| ==> procs[i].pid != procs[j].pid
  }

  method FindCandidates(l: Look) returns (cands: seq<Candidate>)
    requires OnePerPid(l.procs)
    ensures AreCandidates(l, cands)
  {
    hide UnderEditor;
    hide UnderGuarded;
    var spared := FindSpared(l);
    cands := [];
    for i := 0 to |l.procs|
      invariant Distinct(cands)
      invariant forall c :: c in cands ==>
        c.p in l.procs[..i] && c.p.pid > 0 && c.p.pid in l.claims && c.claim == l.claims[c.p.pid] && c.p.pid !in spared
      invariant forall p :: p in l.procs[..i] && p.pid > 0 && p.pid in l.claims && p.pid !in spared ==>
        Candidate(p, l.claims[p.pid]) in cands
    {
      var p := l.procs[i];
      assert l.procs[..i + 1] == l.procs[..i] + [p];
      if p.pid !in spared && p.pid > 0 && p.pid in l.claims {
        forall c | c in cands ensures c.p.pid != p.pid {
          var j :| 0 <= j < i && l.procs[j] == c.p;
        }
        cands := cands + [Candidate(p, l.claims[p.pid])];
      }
    }
    assert l.procs[..|l.procs|] == l.procs;
    assert forall p :: p in l.procs ==> p.pid in Tree.Pids(l.procs);
  }

  method FindSpared(l: Look) returns (spared: set<int>)
    ensures forall pid :: pid in spared <==> Spared(l, pid)
  {
    spared := Tree.SpareEditors(l.procs, l.editors);
    ghost var editors := spared;
    EditorsClosed(l, editors);
    spared := spared + l.self;
    for i := 0 to |l.procs|
      invariant l.self + editors <= spared
      invariant forall x, y :: x in spared && x !in l.self && Tree.IsChild(l.procs, x, y) ==> y in spared
      invariant forall j :: 0 <= j < i && l.procs[j].pid in l.guarded ==> l.procs[j].pid in spared
      invariant forall x :: x in spared ==> x in l.self || x in editors || UnderGuarded(l, x)
    {
      if l.procs[i].pid in l.guarded {
        ghost var already := spared;
        spared := Tree.Spare(l.procs, l.procs[i].pid, spared);
        forall x | x in spared && x !in already ensures UnderGuarded(l, x) {
          Tree.PastLess(l.procs, l.procs[i].pid, x, already, l.self);
        }
      }
    }
    forall x | UnderGuarded(l, x) ensures x in spared {
      var g :| g in l.guarded && g in Tree.Pids(l.procs) && Tree.ReachesPast(l.procs, g, x, l.self);
      var path :| Tree.Path(l.procs, path) && path[0] == g && path[|path| - 1] == x && forall i :: 0 <= i < |path| ==>
        path[i] !in l.self;
      Tree.ClosedHolds(l.procs, spared, path, l.self);
    }
  }

  lemma EditorsClosed(l: Look, editors: set<int>)
    requires forall x :: x in editors <==> UnderEditor(l, x)
    ensures Tree.Closed(l.procs, editors)
  {
    forall x, y | x in editors && Tree.IsChild(l.procs, x, y) ensures y in editors {
      var e :| e in l.editors && Tree.Reaches(l.procs, e, x);
      Tree.ReachesOn(l.procs, e, x, y);
    }
  }

  function NoteStuck(stuck: map<Id, int>, failed: seq<Tree.Proc>, now: int): map<Id, int> {
    if failed == [] then stuck
    else
      var p := failed[|failed| - 1];
      NoteStuck(stuck, failed[..|failed| - 1], now)[(p.pid, p.cmd) := now]
  }

  // The groups that are ended one after another.

  function Digits(n: nat): string { if n < 10 then [('0' as int + n) as char] else Digits(n / 10) + Digits(n % 10) }

  /** A session's leftovers go together; what no session claims goes alone. */
  function KeyOf(c: Candidate): string {
    match c.claim.session
    case Some(s) => s
    case None => "orphan:" + if c.p.pid >= 0 then Digits(c.p.pid) else "-" + Digits(-c.p.pid)
  }

  datatype Group = Group(key: string, items: seq<Candidate>)

  /** The place of the key's group, or the end of the list. */
  function Place(groups: seq<Group>, key: string): (i: nat)
    ensures i <= |groups| && (i < |groups| ==> groups[i].key == key) && forall j :: 0 <= j < i ==> groups[j].key != key
  {
    if groups == [] then 0 else if groups[0].key == key then 0 else 1 + Place(groups[1..], key)
  }

  function AddTo(groups: seq<Group>, c: Candidate): seq<Group> {
    var i := Place(groups, KeyOf(c));
    if i < |groups| then groups[i := Group(groups[i].key, groups[i].items + [c])] else groups + [Group(KeyOf(c), [c])]
  }

  /** The chosen by group, the groups in the order of their first members. */
  function Grouped(doomed: seq<Candidate>): seq<Group> {
    if doomed == [] then [] else AddTo(Grouped(doomed[..|doomed| - 1]), doomed[|doomed| - 1])
  }

  datatype Signal = Term(pid: int) | Kill(pid: int)

  function Procs(items: seq<Candidate>): seq<Tree.Proc> { seq(|items|, i requires 0 <= i < |items| => items[i].p) }

  function Terms(order: seq<Tree.Proc>): seq<Signal> { seq(|order|, i requires 0 <= i < |order| => Term(order[i].pid)) }

  function Kills(left: seq<Tree.Proc>): seq<Signal> { seq(|left|, i requires 0 <= i < |left| => Kill(left[i].pid)) }

  /** The listings after the first and the second signals to group `k`, and the time then. */
  datatype Outcome = Outcome(after: nat -> seq<Tree.Proc>, last: nat -> seq<Tree.Proc>, now: nat -> int)

  /** The signals to one group: SIGTERM to each, deepest first, and SIGKILL to those that stay. */
  function SignalsTo(procs: seq<Tree.Proc>, g: Group, after: seq<Tree.Proc>): seq<Signal> {
    var order := Tree.Order(procs, Procs(g.items));
    Terms(order) + Kills(Tree.StillRun(order, after))
  }

  function Signals(procs: seq<Tree.Proc>, groups: seq<Group>, out: Outcome): seq<Signal> {
    if groups == [] then []
    else
      var n := |groups| - 1;
      Signals(procs, groups[..n], out) + SignalsTo(procs, groups[n], out.after(n))
  }

  /** What outlives SIGKILL in group `k`. */
  function Failed(procs: seq<Tree.Proc>, g: Group, after: seq<Tree.Proc>, last: seq<Tree.Proc>): seq<Tree.Proc> {
    Tree.StillRun(Tree.StillRun(Tree.Order(procs, Procs(g.items)), after), last)
  }

  function StuckAfter(stuck: map<Id, int>, procs: seq<Tree.Proc>, groups: seq<Group>, out: Outcome): map<Id, int> {
    if groups == [] then stuck
    else
      var n := |groups| - 1;
      NoteStuck(StuckAfter(stuck, procs, groups[..n], out), Failed(procs, groups[n], out.after(n), out.last(n)),
        out.now(n))
  }

  class LeftoverReaper {
    var stopped: map<string, int>
    var looks: map<Id, Seen>
    var stuck: map<Id, int>

    ghost function Mem(): Memory
      reads this
    {
      Memory(stopped, looks, stuck)
    }

    constructor ()
      ensures Mem() == Memory(map[], map[], map[])
    {
      stopped, looks, stuck := map[], map[], map[];
    }

    /** The session clocks: a session that is not live starts or keeps its clock, a live one clears it. */
    method SetClocks(l: Look, cands: seq<Candidate>)
      modifies this`stopped
      ensures forall s :: s in Sessions(cands) ==>
        (s in stopped <==> s !in l.live) &&
          (s in stopped ==> stopped[s] == if s in old(stopped) then old(stopped[s]) else l.now)
    {
      ghost var before := stopped;
      for i := 0 to |cands|
        invariant forall s :: s in Sessions(cands[..i]) ==>
          (s in stopped <==> s !in l.live) && (s in stopped ==> stopped[s] == if s in before then before[s] else l.now)
        invariant forall s :: s !in Sessions(cands[..i]) ==>
          (s in stopped <==> s in before) && (s in before ==> stopped[s] == before[s])
      {
        SessionsGrow(cands[..i], cands[i]);
        assert cands[..i + 1] == cands[..i] + [cands[i]];
        var k := cands[i].claim;
        if k.session.Some? {
          var s := k.session.value;
          if s in l.live {
            stopped := stopped - {s};
          } else if s !in stopped {
            stopped := stopped[s := l.now];
          }
        }
      }
      assert cands[..|cands|] == cands;
    }

    /** Counts the candidates and chooses those to end. */
    method Judge(l: Look, cands: seq<Candidate>) returns (doomed: seq<Candidate>)
      requires AreCandidates(l, cands)
      modifies this`looks
      ensures doomed == Pick(l, old(Mem()), cands)
      ensures forall id :: id in Ids(cands) ==>
        id.0 in l.claims && id in looks && looks[id] == NextSeen(l, l.claims[id.0], SeenIn(old(looks), id))
    {
      hide Doomed;
      hide NextSeen;
      hide Ids;
      ghost var m := Mem();
      doomed := [];
      NoIds();
      for i := 0 to |cands|
        invariant stopped == m.stopped && stuck == m.stuck
        invariant doomed == Pick(l, m, cands[..i])
        invariant forall id :: id in Ids(cands[..i]) ==>
          id.0 in l.claims && id in looks && looks[id] == NextSeen(l, l.claims[id.0], SeenIn(m.looks, id))
        invariant forall id :: id !in Ids(cands[..i]) ==> SeenIn(looks, id) == SeenIn(m.looks, id)
      {
        var c := cands[i];
        assert cands[..i + 1] == cands[..i] + [c] && cands[..i + 1][..i] == cands[..i];
        IdsGrow(cands[..i], c);
        NewId(cands, i);
        assert c in cands;
        var seen := SeenIn(looks, IdOf(c));
        if Doomed(l, stopped, stuck, c, seen) {
          doomed := doomed + [c];
        }
        looks := looks[IdOf(c) := NextSeen(l, c.claim, seen)];
      }
      assert cands[..|cands|] == cands;
    }

    method Look(l: Look) returns (cands: seq<Candidate>, doomed: seq<Candidate>)
      requires OnePerPid(l.procs)
      modifies this
      ensures AreCandidates(l, cands)
      ensures Mem() == Remember(l, cands, old(Mem()))
      ensures doomed == Choose(l, cands, old(Mem()))
    {
      hide Doomed;
      hide NextSeen;
      hide Pick;
      hide Choose;
      hide Ids;
      hide Sessions;
      hide AreCandidates;
      cands := FindCandidates(l);
      ghost var m := Mem();
      SetClocks(l, cands);
      SameChoice(l, cands, m, Mem());
      doomed := Judge(l, cands);
      Forget(l, cands, m);
    }

    /**
     * Ends one group of leftovers: children first, SIGKILL to what stays; what outlives that is noted with the time.
     */
    method End(l: Look, group: seq<Tree.Proc>, after: seq<Tree.Proc>, last: seq<Tree.Proc>, now: int)
      returns (terms: seq<int>, kills: seq<int>, failed: seq<Tree.Proc>)
      modifies this`stuck
      ensures var order := Tree.Order(l.procs, group);
              var left := Tree.StillRun(order, after);
              && |terms| == |order| && (forall i :: 0 <= i < |order| ==> terms[i] == order[i].pid)
              && |kills| == |left| && (forall i :: 0 <= i < |left| ==> kills[i] == left[i].pid)
              && failed == Tree.StillRun(left, last)
      ensures stuck == NoteStuck(old(stuck), failed, now)
    {
      terms, kills, failed := Tree.End(l.procs, group, after, last);
      ghost var before := stuck;
      for i := 0 to |failed|
        invariant stuck == NoteStuck(before, failed[..i], now)
      {
        assert failed[..i + 1][..i] == failed[..i];
        stuck := stuck[(failed[i].pid, failed[i].cmd) := now];
      }
      assert failed[..|failed|] == failed;
    }

    /** Ends the groups, one after another. */
    method EndAll(l: Look, groups: seq<Group>, out: Outcome) returns (signals: seq<Signal>)
      modifies this`stuck
      ensures signals == Signals(l.procs, groups, out)
      ensures stuck == StuckAfter(old(stuck), l.procs, groups, out)
    {
      hide Tree.Order;
      hide Tree.StillRun;
      hide NoteStuck;
      ghost var before := stuck;
      signals := [];
      for k := 0 to |groups|
        invariant signals == Signals(l.procs, groups[..k], out)
        invariant stuck == StuckAfter(before, l.procs, groups[..k], out)
      {
        assert groups[..k + 1][..k] == groups[..k];
        var terms, kills, failed := End(l, Procs(groups[k].items), out.after(k), out.last(k), out.now(k));
        var sent := seq(|terms|, i requires 0 <= i < |terms| => Term(terms[i])) +
          seq(|kills|, i requires 0 <= i < |kills| => Kill(kills[i]));
        assert sent == SignalsTo(l.procs, groups[k], out.after(k));
        signals := signals + sent;
      }
      assert groups[..|groups|] == groups;
    }

    /** A look and what it ends. */
    method Run(l: Look, out: Outcome) returns (cands: seq<Candidate>, signals: seq<Signal>)
      requires OnePerPid(l.procs)
      modifies this
      ensures AreCandidates(l, cands)
      ensures var groups := Grouped(Choose(l, cands, old(Mem())));
              && signals == Signals(l.procs, groups, out)
              && Mem() == Remember(l, cands, old(Mem())).(stuck :=
                StuckAfter(Remember(l, cands, old(Mem())).stuck, l.procs, groups, out))
    {
      hide AreCandidates;
      hide Choose;
      hide Remember;
      hide Signals;
      hide StuckAfter;
      var doomed;
      cands, doomed := Look(l);
      ghost var m := Mem();
      var groups := [];
      for i := 0 to |doomed|
        invariant groups == Grouped(doomed[..i]) && Mem() == m
      {
        assert doomed[..i + 1][..i] == doomed[..i];
        groups := AddTo(groups, doomed[i]);
      }
      assert doomed[..|doomed|] == doomed;
      signals := EndAll(l, groups, out);
    }

    /** What this look did not see is forgotten. */
    method Forget(l: Look, cands: seq<Candidate>, ghost m: Memory)
      requires stuck == m.stuck
      requires forall id :: id in Ids(cands) ==>
        id.0 in l.claims && id in looks && looks[id] == NextSeen(l, l.claims[id.0], SeenIn(m.looks, id))
      requires forall x :: x in Sessions(cands) ==>
        (x in stopped <==> x !in l.live) &&
          (x in stopped ==> stopped[x] == if x in m.stopped then m.stopped[x] else l.now)
      modifies this
      ensures Mem() == Remember(l, cands, m)
    {
      hide NextSeen;
      hide Restrict;
      hide Entries;
      hide Clocks;
      RestrictEntries(l, Ids(cands), m.looks, looks);
      RestrictClocks(l, Sessions(cands), m.stopped, stopped);
      looks := Restrict(looks, Ids(cands));
      stuck := Restrict(stuck, Ids(cands));
      stopped := Restrict(stopped, Sessions(cands));
    }
  }

  lemma SameChoice(l: Look, cands: seq<Candidate>, m: Memory, timed: Memory)
    requires timed.looks == m.looks && timed.stuck == m.stuck
    requires forall x :: x in Sessions(cands) ==>
      (x in timed.stopped <==> x !in l.live) &&
      (x in timed.stopped ==> timed.stopped[x] == if x in m.stopped then m.stopped[x] else l.now)
    ensures Pick(l, timed, cands) == Choose(l, cands, m)
  {
    hide Pick;
    hide DoomedBy;
    var exact := m.(stopped := Clocks(l, m.stopped, Sessions(cands)));
    forall c | c in cands ensures DoomedBy(l, timed, c) == DoomedBy(l, exact, c) {
      if c.claim.session.Some? {
        SessionIn(cands, c);
      }
      DoomedReadsOwnClock(l, timed, exact, c);
    }
    PickSame(l, timed, exact, cands);
  }

  lemma SessionIn(cands: seq<Candidate>, c: Candidate)
    requires c in cands && c.claim.session.Some?
    ensures c.claim.session.value in Sessions(cands)
  {
  }

  lemma NoIds()
    ensures Ids([]) == {}
  {
  }

  lemma IdsGrow(cands: seq<Candidate>, c: Candidate)
    ensures Ids(cands + [c]) == Ids(cands) + {IdOf(c)}
  {
    var all := cands + [c];
    assert c in all;
    forall id | id in Ids(cands) ensures id in Ids(all) {
      var x :| x in cands && IdOf(x) == id;
      assert x in all;
    }
  }

  lemma NewId(cands: seq<Candidate>, i: nat)
    requires Distinct(cands) && i < |cands|
    ensures IdOf(cands[i]) !in Ids(cands[..i])
  {
    forall x | x in cands[..i] ensures IdOf(x) != IdOf(cands[i]) {
      var j :| 0 <= j < i && cands[j] == x;
    }
  }

  lemma SessionsGrow(cands: seq<Candidate>, c: Candidate)
    ensures Sessions(cands + [c]) == Sessions(cands) + if c.claim.session.Some? then {c.claim.session.value} else {}
  {
    var all := cands + [c];
    forall s | s in Sessions(cands) ensures s in Sessions(all) {
      var x :| x in cands && x.claim.session == Some(s);
      assert x in all;
    }
    if c.claim.session.Some? {
      assert c in all;
    }
  }
}
