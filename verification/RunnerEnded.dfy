/**
 * Which leftovers a timed run's ticks end (machine/benchRunners.ts, BenchRunners.step): those of idle runners, and
 * those alone.
 */
module RunnerEnded {
  import opened Prelude
  import opened RunnerWorld
  import opened BenchRunners
  import opened RunnerRuns

  /** No listener of the runner has a worker but the timed run's own. */
  ghost predicate Idles(ls: seq<Listener>, root: Root, own: Option<nat>) {
    forall i :: 0 <= i < |ls| && ls[i].root == root ==> ls[i].worker.None? || ls[i].worker == own
  }

  /** The process is listed as a leftover of an idle runner, and can be signalled. */
  ghost predicate Due(ls: seq<Listener>, own: Option<nat>, sc: Script, p: Pid) {
    !sc.termFails(p) && exists x :: x in sc.leftovers && x.pid == p && Idles(ls, x.root, own)
  }

  lemma {:induction false} EndedIff(ended: seq<Pid>, xs: seq<Leftover>, ls: seq<Listener>, own: Option<nat>, sc: Script,
                                    p: Pid)
    ensures p in EndLeftovers(ended, xs, ls, own, sc) <==>
            p in ended || (!sc.termFails(p) && exists x :: x in xs && x.pid == p && Idles(ls, x.root, own))
  {
    if xs != [] {
      var front, x := xs[..|xs| - 1], xs[|xs| - 1];
      EndedIff(ended, front, ls, own, sc, p);
      assert xs == front + [x];
      assert HasWorker(ls, x.root, own) <==> !Idles(ls, x.root, own);
    }
  }

  /** The tick can list the processes as often as it needs to. */
  predicate Lists(b: Books, w: World, sc: Script) {
    !sc.fails && (FirstLook(b.st.paused, w, sc).hs == [] || !sc.failsAgain)
  }

  /** The listing its leftovers are judged by, and the timed run's own worker in it. */
  function JudgedBy(b: Books, w: World, sc: Script): (seq<Listener>, Option<nat>) {
    if FirstLook(b.st.paused, w, sc).hs == [] then (Listing(w, sc).w.ls, sc.own)
    else (SecondListing(b.st.paused, w, sc), sc.ownAgain)
  }

  /** What a tick has ended of this turn: what it had, and every leftover of an idle runner that can be signalled. */
  lemma TickEnds(b: Books, w: World, ticket: nat, sc: Script, p: Pid)
    ensures var was := if b.st.ticket == Some(ticket) then b.st.ended else [];
            var (ls, own) := JudgedBy(b, w, sc);
            p in HeldTick(b, w, ticket, sc).0.st.ended <==> p in was || (Lists(b, w, sc) && Due(ls, own, sc, p))
  {
    hide FirstLook;
    hide SecondLooks;
    hide SecondListing;
    hide EndLeftovers;
    hide Idles;
    hide HappenAll;
    var was := if b.st.ticket == Some(ticket) then b.st.ended else [];
    var (ls, own) := JudgedBy(b, w, sc);
    EndedIff(was, sc.leftovers, ls, own, sc, p);
  }

  /** The tick of a run that ended the process. */
  ghost predicate Ends(s: System, e: Event, p: Pid) {
    && e.Ticks? && e.holder.Some? && Lists(s.b, s.w, e.sc)
    && Due(JudgedBy(s.b, s.w, e.sc).0, JudgedBy(s.b, s.w, e.sc).1, e.sc, p)
  }

  lemma NextEnds(s: System, e: Event, p: Pid)
    ensures var t := Next(s, e);
            p in t.b.st.ended || p in t.b.file.ended ==> p in s.b.st.ended || p in s.b.file.ended || Ends(s, e, p)
  {
    hide Due;
    hide Lists;
    hide JudgedBy;
    hide HappenAll;
    match e
    case Ticks(holder, sc) =>
      if holder.Some? {
        TickEnds(s.b, s.w, holder.value, sc, p);
        FileIs(s.b, s.w, holder.value, sc);
        hide HeldTick;
      } else {
        hide ContinueAll;
      }
    case Machine(xs) =>
    case Restart =>
  }

  lemma FileIs(b: Books, w: World, ticket: nat, sc: Script)
    ensures var b' := HeldTick(b, w, ticket, sc).0; b'.file == b'.st || b'.file == b.file
  {
    hide FirstLook;
    hide SecondLooks;
    hide SecondListing;
    hide EndLeftovers;
    hide HappenAll;
  }

  /**
   * Over every run: whatever the daemon or its file says it has ended, a tick under a timed run ended, as a listed
   * leftover of whose runner no listener then listed had a worker but the timed run's own, and the signal succeeded.
   */
  lemma {:induction false} EndedWereDue(s: System, run: seq<Event>, p: Pid) returns (i: nat)
    requires Fresh(s) && (p in After(s, run).b.st.ended || p in After(s, run).b.file.ended)
    ensures i < |run| && Ends(After(s, run[..i]), run[i], p)
    decreases |run|
  {
    hide Next;
    hide Ends;
    assert run != [];
    var front, t := run[..|run| - 1], After(s, run[..|run| - 1]);
    NextEnds(t, run[|run| - 1], p);
    if Ends(t, run[|run| - 1], p) {
      i := |run| - 1;
    } else {
      i := EndedWereDue(s, front, p);
      assert front[..i] == run[..i];
    }
  }

  // ------------------------------------------------------------------ the file

  lemma {:induction false} KeepAll(paused: seq<Paused>, ls: seq<Listener>)
    ensures |Keep(paused, ls)| <= |paused|
    ensures |Keep(paused, ls)| == |paused| ==> Keep(paused, ls) == paused
  {
    if paused != [] {
      KeepAll(paused[..|paused| - 1], ls);
      assert paused == paused[..|paused| - 1] + [paused[|paused| - 1]];
    }
  }

  /** The tick comes through: it has nothing to do, or can list the processes as often as it needs to. */
  predicate ComesThrough(b: Books, w: World, holder: Option<nat>, sc: Script) {
    if holder.Some? then Lists(b, w, sc) else (b.st.paused == [] && b.st.ticket.None?) || !sc.fails
  }

  /** A tick that comes through writes what it knows, unless that is all it knew. */
  lemma TickWrites(b: Books, w: World, holder: Option<nat>, sc: Script)
    requires ComesThrough(b, w, holder, sc)
    ensures var b' := Tick(b, w, holder, sc).0; b'.file == b'.st || b' == b
    ensures holder.None? ==> var b' := Tick(b, w, holder, sc).0; b'.st.paused == [] && b'.st.ticket.None?
  {
    if holder.Some? {
      KeepAll(b.st.paused, Listing(w, sc).w.ls);
      assert FirstLook(b.st.paused, w, sc).kept == Keep(b.st.paused, Listing(w, sc).w.ls);
    }
    hide SecondLooks;
    hide SecondListing;
    hide EndLeftovers;
    hide FirstLook;
    hide Keep;
    hide ContinueAll;
    hide HappenAll;
  }

  ghost predicate AllComeThrough(s: System, run: seq<Event>) {
    forall i :: 0 <= i < |run| && run[i].Ticks? ==>
      ComesThrough(After(s, run[..i]).b, After(s, run[..i]).w, run[i].holder, run[i].sc)
  }

  /** Over every run whose ticks come through, the file says what the daemon knows: turn, paused and ended. */
  lemma {:induction false} FileInStep(s: System, run: seq<Event>)
    requires Fresh(s) && AllComeThrough(s, run)
    ensures After(s, run).b.file == After(s, run).b.st
    decreases |run|
  {
    hide Tick;
    hide HappenAll;
    if run != [] {
      var front, e := run[..|run| - 1], run[|run| - 1];
      forall i | 0 <= i < |front| && front[i].Ticks?
        ensures ComesThrough(After(s, front[..i]).b, After(s, front[..i]).w, front[i].holder, front[i].sc)
      {
        assert front[..i] == run[..i] && front[i] == run[i];
      }
      hide ComesThrough;
      FileInStep(s, front);
      var t := After(s, front);
      if e.Ticks? {
        TickWrites(t.b, t.w, e.holder, e.sc);
      }
    }
  }
}
