/**
 * The signals a look of the leftover reaper sends (machine/leftovers.ts, the groups at the end of LeftoverReaper.run):
 * to whom, and exactly when a child gets its SIGTERM before its parent.
 */
module LeftoverGroups {
  import opened Prelude
  import opened Leftovers
  import opened LeftoverRuns
  import Sorting
  import Tree = ProcessTree

  // ------------------------------------------------------------------ the groups

  /** The chosen of one group, in their order. */
  function Of(doomed: seq<Candidate>, key: string): seq<Candidate> {
    if doomed == [] then []
    else
      var c := doomed[|doomed| - 1];
      Of(doomed[..|doomed| - 1], key) + if KeyOf(c) == key then [c] else []
  }

  /** Where the group's first member is chosen. */
  function First(doomed: seq<Candidate>, key: string): (i: nat)
    ensures i <= |doomed| && (i < |doomed| ==> KeyOf(doomed[i]) == key) && forall j :: 0 <= j < i ==>
      KeyOf(doomed[j]) != key
  {
    if doomed == [] then 0 else if KeyOf(doomed[0]) == key then 0 else 1 + First(doomed[1..], key)
  }

  /** Each group holds all the chosen of its key, and the groups come in the order of their first members. */
  ghost predicate AreGroups(doomed: seq<Candidate>, groups: seq<Group>) {
    && (forall i :: 0 <= i < |groups| ==>
          First(doomed, groups[i].key) < |doomed| && groups[i].items == Of(doomed, groups[i].key))
    && (forall i, j :: 0 <= i < j < |groups| ==> First(doomed, groups[i].key) < First(doomed, groups[j].key))
    && (forall k :: 0 <= k < |doomed| ==> Place(groups, KeyOf(doomed[k])) < |groups|)
  }

  lemma FirstGrows(front: seq<Candidate>, c: Candidate, key: string)
    ensures First(front, key) < |front| ==> First(front + [c], key) == First(front, key)
    ensures First(front, key) == |front| ==> First(front + [c], key) == if KeyOf(c) == key then |front| else |front| + 1
    ensures Of(front + [c], key) == Of(front, key) + if KeyOf(c) == key then [c] else []
  {
    hide First;
    hide KeyOf;
    var all := front + [c];
    assert all[..|front|] == front && all[|front|] == c;
    var i, j := First(front, key), First(all, key);
    if i < |front| {
      assert all[i] == front[i];
      assert forall k :: 0 <= k < i ==> all[k] == front[k];
    } else {
      assert forall k :: 0 <= k < |front| ==> all[k] == front[k];
    }
  }

  lemma {:induction false} OfNone(doomed: seq<Candidate>, key: string)
    requires forall k :: 0 <= k < |doomed| ==> KeyOf(doomed[k]) != key
    ensures Of(doomed, key) == []
  {
    if doomed != [] {
      OfNone(doomed[..|doomed| - 1], key);
    }
  }

  lemma {:induction false} OfIs(doomed: seq<Candidate>, key: string)
    ensures forall c :: c in Of(doomed, key) <==> c in doomed && KeyOf(c) == key
  {
    hide KeyOf;
    if doomed != [] {
      OfIs(doomed[..|doomed| - 1], key);
      assert doomed == doomed[..|doomed| - 1] + [doomed[|doomed| - 1]];
    }
  }

  lemma NewKey(front: seq<Candidate>, groups: seq<Group>, key: string)
    requires AreGroups(front, groups) && Place(groups, key) == |groups|
    ensures First(front, key) == |front| && Of(front, key) == []
  {
    hide First;
    hide KeyOf;
    hide Of;
    hide Place;
    assert forall k :: 0 <= k < |front| ==> KeyOf(front[k]) != key;
    OfNone(front, key);
  }

  lemma AddKeeps(front: seq<Candidate>, groups: seq<Group>, c: Candidate)
    requires AreGroups(front, groups)
    ensures AreGroups(front + [c], AddTo(groups, c))
  {
    hide First;
    hide KeyOf;
    hide Of;
    hide Place;
    var all, more, p := front + [c], AddTo(groups, c), Place(groups, KeyOf(c));
    if p == |groups| {
      NewKey(front, groups, KeyOf(c));
    }
    forall i | 0 <= i < |more|
      ensures First(all, more[i].key) < |all| && more[i].items == Of(all, more[i].key)
      ensures i < |groups| ==> more[i].key == groups[i].key && First(all, more[i].key) == First(front, groups[i].key)
      ensures i == |groups| ==> First(all, more[i].key) == |front|
    {
      FirstGrows(front, c, more[i].key);
    }
    forall k | 0 <= k < |all| ensures Place(more, KeyOf(all[k])) < |more| {
      var q := if k < |front| then Place(groups, KeyOf(all[k])) else p;
      assert more[q].key == KeyOf(all[k]);
    }
  }

  lemma NoGroups()
    ensures AreGroups([], [])
  {
  }

  lemma {:induction false} GroupsAre(doomed: seq<Candidate>)
    ensures AreGroups(doomed, Grouped(doomed))
  {
    hide AreGroups;
    hide AddTo;
    if doomed == [] {
      NoGroups();
    } else {
      var front := doomed[..|doomed| - 1];
      GroupsAre(front);
      AddKeeps(front, Grouped(front), doomed[|doomed| - 1]);
      assert doomed == front + [doomed[|doomed| - 1]];
    }
  }

  // ------------------------------------------------------------------ the signals

  lemma {:induction false} ProcsOf(items: seq<Candidate>, p: Tree.Proc) returns (c: Candidate)
    requires p in Procs(items)
    ensures c in items && c.p == p
  {
    var i :| 0 <= i < |items| && Procs(items)[i] == p;
    c := items[i];
  }

  lemma OrderSame(procs: seq<Tree.Proc>, items: seq<Tree.Proc>)
    ensures forall p :: p in Tree.Order(procs, items) <==> p in items
  {
    Sorting.SameElements(items, (p: Tree.Proc) => -(Tree.Depth(procs, p.pid, {}) as int));
  }

  /** A signal to a group is to one of its members; a SIGTERM comes at its member's place in the order. */
  lemma ToAMember(procs: seq<Tree.Proc>, g: Group, after: seq<Tree.Proc>, x: nat) returns (c: Candidate)
    requires x < |SignalsTo(procs, g, after)|
    ensures c in g.items && c.p.pid == SignalsTo(procs, g, after)[x].pid
    ensures var order := Tree.Order(procs, Procs(g.items));
            SignalsTo(procs, g, after)[x].Term? ==> x < |order| && order[x] == c.p
  {
    hide Tree.Order;
    hide Procs;
    hide Tree.StillRun;
    var order := Tree.Order(procs, Procs(g.items));
    var left := Tree.StillRun(order, after);
    Tree.StillRunSome(order, after);
    OrderSame(procs, Procs(g.items));
    var p := if x < |order| then order[x] else left[x - |order|];
    assert p in order;
    c := ProcsOf(g.items, p);
  }

  /** Every signal belongs to a group. */
  lemma {:induction false} InAGroup(procs: seq<Tree.Proc>, groups: seq<Group>, out: Outcome, a: nat)
    returns (k: nat, x: nat)
    requires a < |Signals(procs, groups, out)|
    ensures k < |groups| && a == |Signals(procs, groups[..k], out)| + x &&
      x < |SignalsTo(procs, groups[k], out.after(k))|
    ensures Signals(procs, groups, out)[a] == SignalsTo(procs, groups[k], out.after(k))[x]
    decreases |groups|
  {
    hide SignalsTo;
    var n := |groups| - 1;
    var before := Signals(procs, groups[..n], out);
    if a < |before| {
      k, x := InAGroup(procs, groups[..n], out, a);
      assert groups[..n][..k] == groups[..k];
    } else {
      k, x := n, a - |before|;
    }
  }

  lemma {:induction false} LaterGroup(procs: seq<Tree.Proc>, groups: seq<Group>, out: Outcome, k: nat, n: nat)
    requires k < n <= |groups|
    ensures |Signals(procs, groups[..k], out)| +
      |SignalsTo(procs, groups[k], out.after(k))| <= |Signals(procs, groups[..n], out)|
    decreases n
  {
    hide SignalsTo;
    assert groups[..n][..n - 1] == groups[..n - 1];
    if k < n - 1 {
      LaterGroup(procs, groups, out, k, n - 1);
    }
  }

  /** Every pid that is signalled is of a process chosen. */
  lemma SignalledWasChosen(procs: seq<Tree.Proc>, doomed: seq<Candidate>, out: Outcome, a: nat) returns (c: Candidate)
    requires a < |Signals(procs, Grouped(doomed), out)|
    ensures c in doomed && c.p.pid == Signals(procs, Grouped(doomed), out)[a].pid
  {
    hide Signals;
    hide SignalsTo;
    var k, x := InAGroup(procs, Grouped(doomed), out, a);
    GroupsAre(doomed);
    c := ToAMember(procs, Grouped(doomed)[k], out.after(k), x);
    OfIs(doomed, Grouped(doomed)[k].key);
  }

  lemma GroupOfChosen(doomed: seq<Candidate>, c: Candidate) returns (k: nat)
    requires c in doomed
    ensures k < |Grouped(doomed)| && c in Grouped(doomed)[k].items
  {
    hide Grouped;
    hide KeyOf;
    hide Place;
    hide Of;
    hide First;
    GroupsAre(doomed);
    var i :| 0 <= i < |doomed| && doomed[i] == c;
    k := Place(Grouped(doomed), KeyOf(doomed[i]));
    OfIs(doomed, KeyOf(c));
  }

  /** And every process chosen gets a SIGTERM. */
  lemma ChosenIsSignalled(procs: seq<Tree.Proc>, doomed: seq<Candidate>, out: Outcome, c: Candidate) returns (a: nat)
    requires c in doomed
    ensures a < |Signals(procs, Grouped(doomed), out)| && Signals(procs, Grouped(doomed), out)[a] == Term(c.p.pid)
  {
    hide Grouped;
    hide Signals;
    hide SignalsTo;
    var groups := Grouped(doomed);
    var k := GroupOfChosen(doomed, c);
    var x := TermTo(procs, groups[k], out.after(k), c);
    a := |Signals(procs, groups[..k], out)| + x;
    SignalAt(procs, groups, out, k, |groups|, x);
    assert groups[..|groups|] == groups;
  }

  lemma TermTo(procs: seq<Tree.Proc>, g: Group, after: seq<Tree.Proc>, c: Candidate) returns (x: nat)
    requires c in g.items
    ensures x < |SignalsTo(procs, g, after)| && SignalsTo(procs, g, after)[x] == Term(c.p.pid)
  {
    hide Tree.Order;
    hide Tree.StillRun;
    var order := Tree.Order(procs, Procs(g.items));
    OrderSame(procs, Procs(g.items));
    var j :| 0 <= j < |g.items| && g.items[j] == c;
    assert Procs(g.items)[j] == c.p;
    assert c.p in order;
    x :| 0 <= x < |order| && order[x] == c.p;
  }

  lemma {:induction false} SignalAt(procs: seq<Tree.Proc>, groups: seq<Group>, out: Outcome, k: nat, n: nat, x: nat)
    requires k < n <= |groups| && x < |SignalsTo(procs, groups[k], out.after(k))|
    ensures var a := |Signals(procs, groups[..k], out)| + x;
            a < |Signals(procs, groups[..n], out)| &&
            Signals(procs, groups[..n], out)[a] == SignalsTo(procs, groups[k], out.after(k))[x]
    decreases n
  {
    hide SignalsTo;
    assert groups[..n][..n - 1] == groups[..n - 1];
    if k < n - 1 {
      SignalAt(procs, groups, out, k, n - 1, x);
    }
  }

  ghost predicate PidsDiffer(doomed: seq<Candidate>) {
    forall c, d :: c in doomed && d in doomed && c.p.pid == d.p.pid ==> c == d
  }

  /** A SIGTERM of the look: the group of its candidate, and its place there. */
  lemma WhereTerm(procs: seq<Tree.Proc>, doomed: seq<Candidate>, out: Outcome, c: Candidate, a: nat)
    returns (k: nat, x: nat)
    requires PidsDiffer(doomed) && c in doomed
    requires a < |Signals(procs, Grouped(doomed), out)| && Signals(procs, Grouped(doomed), out)[a] == Term(c.p.pid)
    ensures k < |Grouped(doomed)| && Grouped(doomed)[k].key == KeyOf(c) &&
      x < |SignalsTo(procs, Grouped(doomed)[k], out.after(k))|
    ensures a == |Signals(procs, Grouped(doomed)[..k], out)| + x
    ensures var order := Tree.Order(procs, Procs(Grouped(doomed)[k].items)); x < |order| && order[x] == c.p
  {
    hide Signals;
    hide SignalsTo;
    hide Tree.Order;
    k, x := InAGroup(procs, Grouped(doomed), out, a);
    GroupsAre(doomed);
    hide Grouped;
    var e := ToAMember(procs, Grouped(doomed)[k], out.after(k), x);
    OfIs(doomed, Grouped(doomed)[k].key);
  }

  /**
   * Exactly when a child is told to end before its parent, on a listing without a cycle: both are of one group, or the
   * child's group was begun first.
   */
  lemma ChildFirstIff(procs: seq<Tree.Proc>, rank: map<int, nat>, doomed: seq<Candidate>, out: Outcome,
                      child: Candidate,
                      parent: Candidate, a: nat, b: nat)
    requires Tree.Acyclic(procs, rank) && PidsDiffer(doomed) && child in doomed && parent in doomed
    requires Tree.IsParent(procs, parent.p, child.p)
    requires a < |Signals(procs, Grouped(doomed), out)| && Signals(procs, Grouped(doomed), out)[a] == Term(child.p.pid)
    requires b < |Signals(procs, Grouped(doomed), out)| && Signals(procs, Grouped(doomed), out)[b] == Term(parent.p.pid)
    ensures a < b <==> KeyOf(child) == KeyOf(parent) || First(doomed, KeyOf(child)) < First(doomed, KeyOf(parent))
  {
    hide Signals;
    hide SignalsTo;
    hide Tree.Order;
    hide Tree.Acyclic;
    hide First;
    hide KeyOf;
    var groups := Grouped(doomed);
    var k, x := WhereTerm(procs, doomed, out, child, a);
    var n, y := WhereTerm(procs, doomed, out, parent, b);
    GroupsAre(doomed);
    hide Grouped;
    if k < n {
      LaterGroup(procs, groups, out, k, n);
    } else if n < k {
      LaterGroup(procs, groups, out, n, k);
    } else {
      Tree.ChildrenFirst(procs, rank, Procs(groups[k].items));
    }
  }

  // ------------------------------------------------------------------ the signals of a look, over runs

  lemma ChosenDiffer(before: seq<Turn>, t: Turn)
    requires OnePerPid(t.l.procs) && AreCandidates(t.l, t.cands)
    ensures PidsDiffer(Choose(t.l, t.cands, Mem(before)))
    ensures forall c :: c in Choose(t.l, t.cands, Mem(before)) ==> c in t.cands
  {
    var m := Mem(before);
    PickIs(t.l, m.(stopped := Clocks(t.l, m.stopped, Sessions(t.cands))), t.cands);
    hide Pick;
    hide DoomedBy;
    hide Spared;
    var doomed := Choose(t.l, t.cands, m);
    forall c, d | c in doomed && d in doomed && c.p.pid == d.p.pid ensures c == d {
      assert c.p in t.l.procs && d.p in t.l.procs;
    }
  }

  /** The signals of turn `t`, after the turns `before` it. */
  function SignalsOf(before: seq<Turn>, t: Turn, out: Outcome): seq<Signal> {
    Signals(t.l.procs, Grouped(Choose(t.l, t.cands, Mem(before))), out)
  }

  /** No signal of any look goes to the daemon, its parents, an interactive editor or anything one started. */
  lemma SignalsSpareEditors(before: seq<Turn>, t: Turn, out: Outcome, a: nat)
    requires AreCandidates(t.l, t.cands) && a < |SignalsOf(before, t, out)|
    ensures var pid := SignalsOf(before, t, out)[a].pid;
            pid !in t.l.self && forall e :: e in t.l.editors ==> !Tree.Reaches(t.l.procs, e, pid)
  {
    hide Signals;
    hide Choose;
    var c := SignalledWasChosen(t.l.procs, Choose(t.l, t.cands, Mem(before)), out, a);
    EditorsAreSpared(before, t, c);
  }

  /** The same of every look of every run. */
  lemma LookTellsChildFirstIff(before: seq<Turn>, t: Turn, rank: map<int, nat>, out: Outcome, child: Candidate,
                               parent: Candidate,
                               a: nat, b: nat)
    requires OnePerPid(t.l.procs) && AreCandidates(t.l, t.cands) && Tree.Acyclic(t.l.procs, rank)
    requires child in Choose(t.l, t.cands, Mem(before)) && parent in Choose(t.l, t.cands, Mem(before))
    requires Tree.IsParent(t.l.procs, parent.p, child.p)
    requires a < |SignalsOf(before, t, out)| && SignalsOf(before, t, out)[a] == Term(child.p.pid)
    requires b < |SignalsOf(before, t, out)| && SignalsOf(before, t, out)[b] == Term(parent.p.pid)
    ensures var doomed := Choose(t.l, t.cands, Mem(before));
            a < b <==> KeyOf(child) == KeyOf(parent) || First(doomed, KeyOf(child)) < First(doomed, KeyOf(parent))
  {
    hide Choose;
    hide AreCandidates;
    hide OnePerPid;
    hide Tree.Acyclic;
    hide Signals;
    ChosenDiffer(before, t);
    ChildFirstIff(t.l.procs, rank, Choose(t.l, t.cands, Mem(before)), out, child, parent, a, b);
  }

  /** And each goes to a process the look before saw too, by the same pid and command line. */
  lemma SignalsNeedTwoLooks(before: seq<Turn>, t: Turn, out: Outcome, a: nat) returns (c: Candidate)
    requires Valid(before + [t]) && a < |SignalsOf(before, t, out)|
    ensures c in t.cands && SignalsOf(before, t, out)[a].pid == c.p.pid
    ensures before != [] && IdOf(c) in Ids(before[|before| - 1].cands)
  {
    hide Signals;
    hide Choose;
    c := SignalledWasChosen(t.l.procs, Choose(t.l, t.cands, Mem(before)), out, a);
    ChosenSeen(before, t, c);
    TwoLooksAlways(before, t, c);
  }

  lemma ChosenSeen(before: seq<Turn>, t: Turn, c: Candidate)
    requires c in Choose(t.l, t.cands, Mem(before))
    ensures c in t.cands
  {
    var m := Mem(before);
    PickIs(t.l, m.(stopped := Clocks(t.l, m.stopped, Sessions(t.cands))), t.cands);
  }

  lemma {:induction false} NotedApart(stuck: map<Id, int>, more: map<Id, int>, failed: seq<Tree.Proc>, now: int)
    ensures NoteStuck(stuck + more, failed, now) == stuck + NoteStuck(more, failed, now)
  {
    if failed != [] {
      NotedApart(stuck, more, failed[..|failed| - 1], now);
    }
  }

  lemma {:induction false} StuckApart(stuck: map<Id, int>, procs: seq<Tree.Proc>, groups: seq<Group>, out: Outcome)
    ensures StuckAfter(stuck, procs, groups, out) == stuck + StuckAfter(map[], procs, groups, out)
    decreases |groups|
  {
    hide Failed;
    if groups != [] {
      var n := |groups| - 1;
      StuckApart(stuck, procs, groups[..n], out);
      NotedApart(stuck, StuckAfter(map[], procs, groups[..n], out),
        Failed(procs, groups[n], out.after(n), out.last(n)), out.now(n));
    } else {
      assert stuck + map[] == stuck;
    }
  }

  /** The reaper's whole run of a look is a turn of those above: what SIGKILL did not end is the turn's. */
  lemma RunIsATurn(m: Memory, l: Look, cands: seq<Candidate>, out: Outcome)
    ensures var groups := Grouped(Choose(l, cands, m));
            var next := Remember(l, cands, m);
            next.(stuck := StuckAfter(next.stuck, l.procs, groups, out)) ==
            After(m, Turn(l, cands, StuckAfter(map[], l.procs, groups, out)))
  {
    hide StuckAfter;
    hide Grouped;
    hide Choose;
    hide Remember;
    StuckApart(Remember(l, cands, m).stuck, l.procs, Grouped(Choose(l, cands, m)), out);
  }

  // ------------------------------------------------------------------ a parent that is told first

  const STARTER := Tree.Proc(10, 1, "starter")
  const PLAYER := Tree.Proc(11, 10, "player")
  const OF_WORKER := Candidate(STARTER, Claim(Some("w"), false, false, false, false, false, true, None))
  const OF_NOBODY := Candidate(PLAYER, Claim(None, false, false, true, false, false, true, None))
  const WHILE_PAUSED := Look(
    0, [STARTER, PLAYER], [], {}, {}, map[10 := OF_WORKER.claim, 11 := OF_NOBODY.claim], {}, {}, {}, map[], true, true)

  lemma {:induction false} PickAll(l: Look, m: Memory, cands: seq<Candidate>)
    requires forall c :: c in cands ==> DoomedBy(l, m, c)
    ensures Pick(l, m, cands) == cands
  {
    hide DoomedBy;
    if cands != [] {
      PickAll(l, m, cands[..|cands| - 1]);
      assert cands[|cands| - 1] in cands && cands == cands[..|cands| - 1] + [cands[|cands| - 1]];
    }
  }

  lemma NoneStuck(t: Turn)
    requires t.stuck == map[]
    ensures Mem([t]).stuck == map[]
  {
    assert [t][..0] == [] && Mem([]).stuck == map[];
    var next := Remember(t.l, t.cands, Mem([]));
    assert next.stuck == map[] && next.stuck + t.stuck == map[];
    assert Mem([t]) == After(Mem([]), t);
  }

  /** A pause ends at the second look what the first saw. */
  lemma PauseEndsAll(t: Turn)
    requires AreCandidates(t.l, t.cands) && t.l.pauseEnds && t.stuck == map[] && forall c :: c in t.cands ==>
      c.claim.born
    ensures Choose(t.l, t.cands, Mem([t])) == t.cands
  {
    hide AreCandidates;
    var m := Mem([t]);
    NoneStuck(t);
    var exact := m.(stopped := Clocks(t.l, m.stopped, Sessions(t.cands)));
    forall c | c in t.cands ensures DoomedBy(t.l, exact, c) {
      assert IdOf(c) in Ids(t.cands);
      CountIsStreak([t], IdOf(c));
      hide Mem;
      hide Ends;
      assert SeenIn(m.looks, IdOf(c)).n == 1;
    }
    hide *;
    PickAll(t.l, exact, t.cands);
    ChooseIs(t, m);
  }

  lemma ChooseIs(t: Turn, m: Memory)
    ensures Choose(t.l, t.cands, m) == Pick(t.l, m.(stopped := Clocks(t.l, m.stopped, Sessions(t.cands))), t.cands)
  {
    hide Pick;
  }

  lemma BothCandidates()
    ensures AreCandidates(WHILE_PAUSED, [OF_WORKER, OF_NOBODY]) && OnePerPid(WHILE_PAUSED.procs)
  {
    var cands := [OF_WORKER, OF_NOBODY];
    assert OF_WORKER in cands && OF_NOBODY in cands;
  }

  /** While a pause ends all, a worker's starter is told to end before the player it started, which no worker claims. */
  lemma ParentIsToldFirst(out: Outcome) returns (a: nat, b: nat)
    ensures Tree.IsParent(WHILE_PAUSED.procs, STARTER, PLAYER)
    ensures var t := Turn(WHILE_PAUSED, [OF_WORKER, OF_NOBODY], map[]);
            var sent := SignalsOf([t], t, out);
            b < a < |sent| && sent[b] == Term(STARTER.pid) && sent[a] == Term(PLAYER.pid)
  {
    hide Choose;
    hide Signals;
    hide Grouped;
    hide Mem;
    var t := Turn(WHILE_PAUSED, [OF_WORKER, OF_NOBODY], map[]);
    BothCandidates();
    PauseEndsAll(t);
    ChosenDiffer([t], t);
    var doomed := [OF_WORKER, OF_NOBODY];
    assert OF_WORKER in doomed && OF_NOBODY in doomed;
    a := ChosenIsSignalled(WHILE_PAUSED.procs, doomed, out, OF_NOBODY);
    b := ChosenIsSignalled(WHILE_PAUSED.procs, doomed, out, OF_WORKER);
    StarterIsParent();
    assert KeyOf(OF_WORKER) == "w" && KeyOf(OF_NOBODY)[0] == 'o';
    assert First(doomed, KeyOf(OF_WORKER)) == 0;
    ChildFirstIff(WHILE_PAUSED.procs, map[10 := 0, 11 := 1], doomed, out, OF_NOBODY, OF_WORKER, a, b);
  }

  lemma StarterIsParent()
    ensures Tree.IsParent(WHILE_PAUSED.procs, STARTER, PLAYER) &&
      Tree.Acyclic(WHILE_PAUSED.procs, map[10 := 0, 11 := 1])
  {
    var procs := WHILE_PAUSED.procs;
    assert STARTER in procs && PLAYER in procs;
    hide FirstSuch;
    FoundProc(procs, STARTER);
    FoundProc(procs, PLAYER);
    assert Tree.Find(procs, 1) == None;
  }

  lemma FoundProc(procs: seq<Tree.Proc>, p: Tree.Proc)
    requires p in procs && forall q :: q in procs && q.pid == p.pid ==> q == p
    ensures Tree.Find(procs, p.pid) == Some(p)
  {
    hide FirstSuch;
  }
}
