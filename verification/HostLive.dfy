/**
 * When a session of the host protocol (machine/agentHost.ts) counts as live, and when it starts hosts: over every run,
 * step by step.
 */
module HostLive {
  import opened Prelude
  import opened HostProtocol
  import opened HostRuns

  lemma {:induction false} LeftSome(sends: seq<Sent>, consumed: nat)
    ensures Left(sends, consumed) != [] <==> exists i :: 0 <= i < |sends| && sends[i].n > consumed
  {
    if sends != [] {
      var front := sends[..|sends| - 1];
      LeftSome(front, consumed);
      if sends[|sends| - 1].n <= consumed && Left(front, consumed) != [] {
        var i :| 0 <= i < |front| && front[i].n > consumed;
        assert sends[i].n > consumed;
      }
    }
  }

  lemma {:induction false} PutAllLive(d: Daemon, ms: seq<Msg>)
    ensures PutAll(d, ms).live == d.live
  {
    if ms != [] {
      PutAllLive(d, ms[..|ms| - 1]);
    }
  }

  /** The daemon reads the last line of its host. */
  predicate HearsClosed(s: System) { s.d.running && s.hosts != [] && Last(s).closed }

  /** What a step makes of whether the session is live. */
  ghost predicate Lives(s: System, step: Step, live: bool) {
    match step
    case GiveMessage(_, _, how) =>
      live <==> s.d.running || s.d.stopping || s.d.waiting != [] || how.Launched? || (how.InUse? && s.d.live)
    case ReadClosed =>
      live <==>
      s.d.live && (HearsClosed(s) ==>
        !s.d.disposed && exists i :: 0 <= i < |s.d.sends| && s.d.sends[i].n > Last(s).consumed)
    case TornDown(how) => live <==> s.d.live && (s.d.stopping && s.d.waiting != [] && !s.d.disposed ==> how.Launched?)
    case ReadState(told) => live == told
    case End => !live
    case Restart(alive, told) => live <==> s.mine && alive && told
    case _ => live == s.d.live
  }

  /**
   * After every run, what each step does to it. A message makes the session live unless no host could be had for it.
   * The end of a host ends that, but for a `closed` behind which messages are left that a new host will carry, and so
   * does a launch that fails after a teardown. A restart goes by the record of a host that runs on.
   */
  lemma LiveTold(run: seq<Step>, step: Step)
    ensures Lives(After(run), step, After(run + [step]).d.live)
  {
    var s := After(run);
    assert (run + [step])[..|run|] == run;
    RunKeeps(run);
    assert s.d.stopping ==> !s.d.running;
    match step
    case ReadClosed =>
      if HearsClosed(s) {
        LeftSome(s.d.sends, Last(s).consumed);
      }
      hide Left;
    case TornDown(how) =>
      if s.d.waiting != [] {
        PutAllLive(Started(s.d.(stopping := false, waiting := [], inFile := if how.InUse? then s.d.inFile else []),
                           s.d.waiting[0], how), s.d.waiting[1..]);
      }
      hide PutAll;
    case _ =>
      hide Left;
      hide PutAll;
      hide ApplyAll;
  }

  // ------------------------------------------------------------------ disposed

  predicate OfItself(step: Step) { !step.GiveMessage? && !step.Restart? }

  lemma StartsNone(s: System, step: Step)
    requires s.d.disposed && s.d.waiting == [] && OfItself(step)
    ensures var t := Next(s, step); t.d.disposed && t.d.waiting == [] && |t.hosts| == |s.hosts|
  {
    hide ApplyAll;
    hide Left;
  }

  /** A disposed session starts no host of itself, and keeps nothing waiting, until the next message or a restart. */
  lemma {:induction false} DisposedStartsNone(front: seq<Step>, run: seq<Step>)
    requires forall i :: 0 <= i < |run| ==> OfItself(run[i])
    ensures var s := After(front + [Dispose] + run);
            s.d.disposed && s.d.waiting == [] && |s.hosts| == |After(front).hosts|
  {
    var all := front + [Dispose] + run;
    if run == [] {
      assert all[..|all| - 1] == front && all[|all| - 1] == Dispose;
    } else {
      var r := run[..|run| - 1];
      assert all[..|all| - 1] == front + [Dispose] + r && all[|all| - 1] == run[|run| - 1];
      DisposedStartsNone(front, r);
      hide Next;
      StartsNone(After(front + [Dispose] + r), run[|run| - 1]);
    }
  }

  /**
   * After any run, disposed or not, a message to a daemon that restarts over a dead host is, once the old tree is gone,
   * the first command of a new host's in.jsonl.
   */
  lemma RestartServes(run: seq<Step>, live: bool, m: Msg, other: bool, how: Launch)
    requires After(run).mine
    ensures var s := After(run + [Restart(false, live)] + [GiveMessage(m, other, how)] + [TornDown(Launched)]);
            && |s.hosts| == |After(run).hosts| + 1 && Last(s) == Host(0, 0, [], false)
            && s.mine && s.d.running && s.d.live && s.d.inFile == [Command(1, Send(m))]
  {
    var a := run + [Restart(false, live)];
    var b := a + [GiveMessage(m, other, how)];
    var c := b + [TornDown(Launched)];
    assert a[..|a| - 1] == run && b[..|b| - 1] == a && c[..|c| - 1] == b;
    hide CountLines;
    var was := After(run);
    var s, t := After(a), After(b);
    assert s == Next(was, Restart(false, live));
    assert s.d.stopping && !s.d.running && !s.d.disposed && s.d.waiting == [] && s.d.launches == was.d.launches;
    assert t == Next(s, GiveMessage(m, other, how));
    assert t.d == s.d.(waiting := [m], live := true) && t.hosts == s.hosts && |s.hosts| == |was.hosts|;
    assert After(c) == Next(t, TornDown(Launched));
    assert [m][1..] == [];
  }
}
