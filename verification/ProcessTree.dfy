/**
 * Process listings as the leftover reaper walks them (`machine/leftovers.ts`): the tree spared under an editor, and the
 * order in which leftovers are ended. Parent links may form a cycle: a reused pid can name its own descendant.
 */
module ProcessTree {
  import opened Prelude
  import opened Sorting

  datatype Proc = Proc(pid: int, ppid: int, cmd: string)

  function Pids(procs: seq<Proc>): set<int> { set p | p in procs :: p.pid }

  predicate IsChild(procs: seq<Proc>, x: int, y: int) { exists p :: p in procs && p.ppid == x && p.pid == y }

  /** Parent to child, step by step. */
  ghost predicate Path(procs: seq<Proc>, path: seq<int>) {
    path != [] && forall i :: 0 <= i < |path| - 1 ==> IsChild(procs, path[i], path[i + 1])
  }

  ghost predicate Reaches(procs: seq<Proc>, root: int, x: int) {
    exists path :: Path(procs, path) && path[0] == root && path[|path| - 1] == x
  }

  /** Step by step past everything in `avoid`. */
  ghost predicate ReachesPast(procs: seq<Proc>, root: int, x: int, avoid: set<int>) {
    exists path :: Path(procs, path) && path[0] == root && path[|path| - 1] == x && forall i :: 0 <= i < |path| ==>
      path[i] !in avoid
  }

  /** Every child of a member is a member. */
  ghost predicate Closed(procs: seq<Proc>, s: set<int>) {
    forall x, y :: x in s && IsChild(procs, x, y) ==> y in s
  }

  lemma ReachesOn(procs: seq<Proc>, root: int, x: int, y: int)
    requires Reaches(procs, root, x) && IsChild(procs, x, y)
    ensures Reaches(procs, root, y)
  {
    var path :| Path(procs, path) && path[0] == root && path[|path| - 1] == x;
    assert Path(procs, path + [y]);
  }

  lemma PastItself(procs: seq<Proc>, x: int, avoid: set<int>)
    requires x !in avoid
    ensures ReachesPast(procs, x, x, avoid)
  {
    assert Path(procs, [x]);
  }

  lemma PastOn(procs: seq<Proc>, root: int, x: int, y: int, avoid: set<int>)
    requires ReachesPast(procs, root, x, avoid) && IsChild(procs, x, y) && y !in avoid
    ensures ReachesPast(procs, root, y, avoid)
  {
    var path :| Path(procs, path) && path[0] == root && path[|path| - 1] == x && forall i :: 0 <= i < |path| ==>
      path[i] !in avoid;
    assert Path(procs, path + [y]);
  }

  lemma PastReaches(procs: seq<Proc>, root: int, x: int, avoid: set<int>)
    requires ReachesPast(procs, root, x, avoid)
    ensures Reaches(procs, root, x)
  {
    var path :| Path(procs, path) && path[0] == root && path[|path| - 1] == x && forall i :: 0 <= i < |path| ==>
      path[i] !in avoid;
  }

  lemma PastLess(procs: seq<Proc>, root: int, x: int, avoid: set<int>, less: set<int>)
    requires ReachesPast(procs, root, x, avoid) && less <= avoid
    ensures ReachesPast(procs, root, x, less)
  {
    var path :| Path(procs, path) && path[0] == root && path[|path| - 1] == x && forall i :: 0 <= i < |path| ==>
      path[i] !in avoid;
  }

  /** Nothing reached past `avoid` lies outside a set that holds the children of its other members. */
  lemma {:induction false} ClosedHolds(procs: seq<Proc>, s: set<int>, path: seq<int>, avoid: set<int>)
    requires Path(procs, path) && path[0] in s && forall i :: 0 <= i < |path| ==> path[i] !in avoid
    requires forall x, y :: x in s && x !in avoid && IsChild(procs, x, y) ==> y in s
    ensures path[|path| - 1] in s
  {
    if |path| > 1 {
      var front := path[..|path| - 1];
      assert Path(procs, front);
      ClosedHolds(procs, s, front, avoid);
      assert IsChild(procs, path[|path| - 2], path[|path| - 1]);
    }
  }

  /**
   * Spares `pid` and everything under it, with a stack of pids still to visit. What is spared already is passed over,
   * trees and all.
   */
  method Spare(procs: seq<Proc>, pid: int, already: set<int>) returns (spared: set<int>)
    ensures already <= spared && pid in spared
    ensures spared <= already + {pid} + Pids(procs)
    ensures forall x :: x in spared ==> x in already || ReachesPast(procs, pid, x, already)
    ensures forall x, y :: x in spared && x !in already && IsChild(procs, x, y) ==> y in spared
  {
    spared := already;
    var q := [pid];
    ghost var all := {pid} + Pids(procs);
    if pid !in already {
      PastItself(procs, pid, already);
    }
    while q != []
      invariant already <= spared <= already + all
      invariant pid in spared || pid in q
      invariant forall x :: x in q ==> x in all && (x in already || ReachesPast(procs, pid, x, already))
      invariant forall x :: x in spared ==> x in already || ReachesPast(procs, pid, x, already)
      invariant forall x, y :: x in spared && x !in already && IsChild(procs, x, y) ==> y in spared || y in q
      decreases all - spared, |q|
    {
      var x := q[|q| - 1];
      ghost var before := q;
      q := q[..|q| - 1];
      assert before == q + [x];
      if x !in spared {
        spared := spared + {x};
        q := q + Children(procs, x);
        ChildrenOf(procs, x);
        forall y | y in Children(procs, x) ensures y in all && (y in already || ReachesPast(procs, pid, y, already)) {
          if y !in already {
            PastOn(procs, pid, x, y, already);
          }
        }
      }
    }
  }

  /** The pids pushed for `x`, in listing order. */
  function Children(procs: seq<Proc>, x: int): seq<int> {
    if procs == [] then []
    else
      var p := procs[|procs| - 1];
      Children(procs[..|procs| - 1], x) + if p.ppid == x && p.pid != x then [p.pid] else []
  }

  lemma {:induction false} ChildrenOf(procs: seq<Proc>, x: int)
    ensures forall y :: y in Children(procs, x) <==> IsChild(procs, x, y) && y != x
    ensures forall y :: y in Children(procs, x) ==> y in Pids(procs)
  {
    if procs != [] {
      var front, p := procs[..|procs| - 1], procs[|procs| - 1];
      assert procs == front + [p];
      ChildrenOf(front, x);
      forall y ensures IsChild(procs, x, y) <==> IsChild(front, x, y) || (p.ppid == x && p.pid == y) {
        assert p in procs;
      }
    }
  }

  /** The interactive editors and everything they started: exactly what their links reach. */
  method SpareEditors(procs: seq<Proc>, editors: seq<int>) returns (spared: set<int>)
    ensures forall x :: x in spared <==> exists e :: e in editors && Reaches(procs, e, x)
  {
    spared := {};
    for i := 0 to |editors|
      invariant Closed(procs, spared)
      invariant forall j :: 0 <= j < i ==> editors[j] in spared
      invariant forall x :: x in spared ==> exists e :: e in editors && Reaches(procs, e, x)
    {
      ghost var already := spared;
      spared := Spare(procs, editors[i], spared);
      forall x | x in spared && x !in already ensures Reaches(procs, editors[i], x) {
        PastReaches(procs, editors[i], x, already);
      }
    }
    forall e, x | e in editors && Reaches(procs, e, x) ensures x in spared {
      var path :| Path(procs, path) && path[0] == e && path[|path| - 1] == x;
      ClosedHolds(procs, spared, path, {});
    }
  }

  // The order of ending.

  function Find(procs: seq<Proc>, pid: int): Option<Proc> { FirstSuch(procs, (p: Proc) => p.pid == pid) }

  /** How many processes the walk from `pid` up its parents meets; it stops at one it has met before. */
  function Depth(procs: seq<Proc>, pid: int, seen: set<int>): nat
    decreases Pids(procs) - seen
  {
    var x := Find(procs, pid);
    if x.None? || pid in seen then 0
    else
      assert x.value in procs;
      1 + Depth(procs, x.value.ppid, seen + {pid})
  }

  method DepthLoop(procs: seq<Proc>, pid: int) returns (n: nat)
    ensures n == Depth(procs, pid, {})
  {
    n := 0;
    var seen: set<int>, x := {}, Find(procs, pid);
    ghost var at := pid;
    while x.Some? && x.value.pid !in seen
      invariant x == Find(procs, at)
      invariant n + Depth(procs, at, seen) == Depth(procs, pid, {})
      decreases Pids(procs) - seen
    {
      assert x.value in procs;
      seen := seen + {x.value.pid};
      n := n + 1;
      at := x.value.ppid;
      x := Find(procs, x.value.ppid);
    }
  }

  /** No process is its own ancestor: parents can be ranked below their children. */
  ghost predicate Acyclic(procs: seq<Proc>, rank: map<int, nat>) {
    forall pid :: Find(procs, pid).Some? ==>
      pid in rank && var up := Find(procs, pid).value.ppid; Find(procs, up).Some? ==> up in rank && rank[up] < rank[pid]
  }

  /** On an acyclic listing the walk never meets a process twice, so what it has met makes no difference. */
  lemma {:induction false} DepthIgnoresSeen(procs: seq<Proc>, rank: map<int, nat>, pid: int, seen: set<int>,
                                            other: set<int>)
    requires Acyclic(procs, rank)
    requires pid in rank ==> forall x :: x in seen + other && x in rank ==> rank[pid] < rank[x]
    requires forall x :: x in seen + other ==> x in rank
    ensures Depth(procs, pid, seen) == Depth(procs, pid, other)
    decreases if pid in rank then rank[pid] + 1 else 0
  {
    var x := Find(procs, pid);
    if x.Some? {
      var up := x.value.ppid;
      if Find(procs, up).Some? {
        DepthIgnoresSeen(procs, rank, up, seen + {pid}, other + {pid});
      }
    }
  }

  lemma ChildIsDeeper(procs: seq<Proc>, rank: map<int, nat>, pid: int)
    requires Acyclic(procs, rank) && Find(procs, pid).Some?
    ensures Depth(procs, pid, {}) == 1 + Depth(procs, Find(procs, pid).value.ppid, {})
  {
    var up := Find(procs, pid).value.ppid;
    if Find(procs, up).Some? {
      assert {} + {pid} == {pid};
      DepthIgnoresSeen(procs, rank, up, {pid}, {});
    }
  }

  /** The listing gives `child` the parent `p`. */
  predicate IsParent(procs: seq<Proc>, p: Proc, child: Proc) {
    Find(procs, child.pid).Some? && Find(procs, child.pid).value.ppid == p.pid
  }

  function Order(procs: seq<Proc>, items: seq<Proc>): seq<Proc> {
    Sort(items, (p: Proc) => -(Depth(procs, p.pid, {}) as int))
  }

  /** Everything that is to end is ended once, and a child before its parent. */
  lemma ChildrenFirst(procs: seq<Proc>, rank: map<int, nat>, items: seq<Proc>)
    requires Acyclic(procs, rank)
    ensures multiset(Order(procs, items)) == multiset(items)
    ensures var order := Order(procs, items);
            forall i, j :: 0 <= i < |order| && 0 <= j < |order| && IsParent(procs, order[j], order[i]) ==> i < j
  {
    var key := (p: Proc) => -(Depth(procs, p.pid, {}) as int);
    var order := Order(procs, items);
    SortSorts(items, key);
    forall i, j | 0 <= i < |order| && 0 <= j < |order| && IsParent(procs, order[j], order[i]) ensures i < j {
      ChildIsDeeper(procs, rank, order[i].pid);
      assert key(order[i]) < key(order[j]);
    }
  }

  predicate Runs(procs: seq<Proc>, p: Proc) { exists x :: x in procs && x.pid == p.pid && x.cmd == p.cmd }

  function StillRun(order: seq<Proc>, procs: seq<Proc>): seq<Proc> {
    if order == [] then []
    else
      StillRun(order[..|order| - 1], procs) + if Runs(procs, order[|order| - 1]) then [order[|order| - 1]] else []
  }

  /** Ends `items`: SIGTERM to each, SIGKILL to those the listing `after` still shows; those `last` shows are stuck. */
  method End(procs: seq<Proc>, items: seq<Proc>, after: seq<Proc>, last: seq<Proc>)
    returns (terms: seq<int>, kills: seq<int>, stuck: seq<Proc>)
    ensures var order := Order(procs, items);
            |terms| == |order| && forall i :: 0 <= i < |order| ==> terms[i] == order[i].pid
    ensures var left := StillRun(Order(procs, items), after);
            |kills| == |left| && (forall i :: 0 <= i < |left| ==> kills[i] == left[i].pid) &&
              stuck == StillRun(left, last)
  {
    hide Order;
    var order := Order(procs, items);
    terms := [];
    for i := 0 to |order|
      invariant |terms| == i && forall j :: 0 <= j < i ==> terms[j] == order[j].pid
    {
      terms := terms + [order[i].pid];
    }
    var left := StillRun(order, after);
    kills := [];
    for i := 0 to |left|
      invariant |kills| == i && forall j :: 0 <= j < i ==> kills[j] == left[j].pid
    {
      kills := kills + [left[i].pid];
    }
    stuck := StillRun(left, last);
  }

  /** A signal goes only to what was to end, a second one only to what outlived the first. */
  lemma {:induction false} StillRunSome(order: seq<Proc>, procs: seq<Proc>)
    ensures forall p :: p in StillRun(order, procs) <==>
              p in order && exists x :: x in procs && x.pid == p.pid && x.cmd == p.cmd
  {
    if order != [] {
      StillRunSome(order[..|order| - 1], procs);
      assert order == order[..|order| - 1] + [order[|order| - 1]];
    }
  }
}
