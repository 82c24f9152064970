/**
 * A message whose run differs from what its host started with (machine/agentHost.ts, send): the host that runs, its
 * agent ended, never gets it; it waits behind a Stop for a host launched later.
 */
module HostOther {
  import opened Prelude
  import opened HostProtocol
  import opened HostRuns

  // ------------------------------------------------------------------ where a message is not

  /** A command that carries the message. */
  ghost predicate Carries(cs: seq<Command>, m: Msg) { exists i :: 0 <= i < |cs| && cs[i].op == Send(m) }

  lemma {:induction false} MsgsCarry(cs: seq<Command>, m: Msg)
    ensures m in Msgs(cs) <==> Carries(cs, m)
  {
    if cs != [] {
      var front, c := cs[..|cs| - 1], cs[|cs| - 1];
      MsgsCarry(front, m);
      assert cs == front + [c];
      if Carries(front, m) {
        var i :| 0 <= i < |front| && front[i].op == Send(m);
        assert cs[i].op == Send(m);
      }
      if c.op == Send(m) {
        assert cs[|front|].op == Send(m);
      }
    }
  }

  lemma CarriesPlus(a: seq<Command>, b: seq<Command>, m: Msg)
    ensures Carries(a + b, m) <==> Carries(a, m) || Carries(b, m)
  {
    if Carries(a, m) {
      var i :| 0 <= i < |a| && a[i].op == Send(m);
      assert (a + b)[i].op == Send(m);
    }
    if Carries(b, m) {
      var i :| 0 <= i < |b| && b[i].op == Send(m);
      assert (a + b)[|a| + i].op == Send(m);
    }
  }

  lemma CarriesPart(cs: seq<Command>, i: nat, j: nat, m: Msg)
    requires i <= j <= |cs| && Carries(cs[i..j], m)
    ensures Carries(cs, m)
  {
    var k :| 0 <= k < j - i && cs[i..j][k].op == Send(m);
    assert cs[i + k].op == Send(m);
  }

  lemma {:induction false} AppliedCarried(h: Host, cs: seq<Command>, m: Msg)
    ensures m in ApplyAll(h, cs).applied ==> m in h.applied || Carries(cs, m)
    decreases |cs|
  {
    if cs != [] {
      var front, c := cs[..|cs| - 1], cs[|cs| - 1];
      AppliedCarried(h, front, m);
      assert cs == front + [c];
      CarriesPlus(front, [c], m);
      assert [c][0] == c;
    }
  }

  lemma {:induction false} PutAllCarries(d: Daemon, ms: seq<Msg>, m: Msg)
    ensures Carries(PutAll(d, ms).inFile, m) ==> Carries(d.inFile, m) || m in ms
    decreases |ms|
  {
    if ms != [] {
      var e := PutAll(d, ms[..|ms| - 1]);
      PutAllCarries(d, ms[..|ms| - 1], m);
      CarriesPlus(e.inFile, [Command(e.n + 1, Send(ms[|ms| - 1]))], m);
    }
  }

  // ------------------------------------------------------------------ what every run keeps

  /** None of the first `n` hosts delivered the message, and the `n`-th, while in.jsonl is its, is not given it. */
  ghost predicate Away(s: System, m: Msg, n: nat) {
    && n <= |s.hosts|
    && (forall j :: 0 <= j < n ==> m !in s.hosts[j].applied)
    && (|s.hosts| == n && s.mine ==> !Carries(s.d.inFile, m))
  }

  /** Neither delivered, nor in in.jsonl, nor waiting. */
  ghost predicate Unknown(s: System, m: Msg) {
    Away(s, m, |s.hosts|) && !Carries(s.d.inFile, m) && m !in s.d.waiting
  }

  /** The file the daemon's step leaves, and its queue, hold the message only if they did. */
  ghost predicate NoNews(d: Daemon, e: Daemon, m: Msg) {
    && (Carries(e.inFile, m) ==> Carries(d.inFile, m) || m in d.waiting)
    && (e.launches == d.launches && d.running ==> (Carries(e.inFile, m) ==> Carries(d.inFile, m)))
    && (m in e.waiting ==> m in d.waiting || Carries(d.inFile, m))
  }

  lemma PutNoNews(d: Daemon, op: Op, m: Msg)
    requires op != Send(m)
    ensures NoNews(d, Put(d, op), m)
  {
    var c := Command(d.n + 1, op);
    CarriesPlus(d.inFile, [c], m);
    assert [c][0] == c;
  }

  lemma StartedNoNews(d: Daemon, x: Msg, how: Launch, m: Msg)
    ensures Carries(Started(d, x, how).inFile, m) ==> x == m || (how.InUse? && Carries(d.inFile, m))
    ensures Started(d, x, how).waiting == d.waiting
    ensures Started(d, x, how).launches == d.launches + if how.Launched? then 1 else 0
  {
    var c := Command(1, Send(x));
    assert [] + [c] == [c] && [c][0] == c;
  }

  lemma SettledNoNews(d: Daemon, how: Launch, m: Msg)
    requires !d.running
    ensures NoNews(d, Settled(d, how), m)
  {
    hide Started;
    hide PutAll;
    hide Msgs;
    hide SentOf;
    SettledIs(d, how);
    NothingCarried(m);
    hide Carries;
    var e := d.(stopping := false, waiting := [], inFile := if how.InUse? then d.inFile else []);
    if d.waiting != [] {
      StartedNoNews(e, d.waiting[0], how, m);
      PutAllCarries(Started(e, d.waiting[0], how), d.waiting[1..], m);
      assert d.waiting[0] in d.waiting;
    }
  }

  lemma ClosedNoNews(s: System, m: Msg)
    requires Inv(s) && s.d.running
    ensures NoNews(s.d, Closed(s.d, Last(s).consumed), m)
  {
    hide Msgs;
    hide SentOf;
    hide Left;
    var file, k := s.d.inFile, Last(s).k;
    LeftIs(file, s.base, k);
    var from := Max(s.base, k);
    MsgsCarry(file[from..], m);
    if Carries(file[from..], m) {
      assert file[from..] == file[from..|file|];
      CarriesPart(file, from, |file|, m);
    }
  }

  /** The same hosts but for the last one's being closed. */
  lemma CloseLastSame(s: System)
    ensures var t := CloseLast(s);
            && t == s.(hosts := t.hosts) && |t.hosts| == |s.hosts|
            && forall j :: 0 <= j < |s.hosts| ==> t.hosts[j].applied == s.hosts[j].applied
  {
  }

  lemma PollAway(s: System, more: nat, m: Msg, n: nat)
    requires Inv(s)
    ensures Away(s, m, n) ==> Away(Next(s, HostPolls(more)), m, n)
    ensures Unknown(s, m) ==> Unknown(Next(s, HostPolls(more)), m)
  {
    hide Msgs;
    hide SentOf;
    hide ApplyAll;
    hide Carries;
    if s.mine && !Last(s).closed {
      var h, file := Last(s), s.d.inFile;
      var j := Min(h.k + more, |file|);
      AppliedCarried(h, file[h.k..j], m);
      if Carries(file[h.k..j], m) {
        CarriesPart(file, h.k, j, m);
      }
    }
  }

  lemma GiveAway(s: System, x: Msg, other: bool, how: Launch, m: Msg, n: nat)
    requires Inv(s) && x != m
    ensures Away(s, m, n) ==> Away(Next(s, GiveMessage(x, other, how)), m, n)
    ensures Unknown(s, m) ==> Unknown(Next(s, GiveMessage(x, other, how)), m)
  {
    hide Msgs;
    hide SentOf;
    hide Carries;
    hide Started;
    PutNoNews(s.d, Stop, m);
    PutNoNews(s.d, Send(x), m);
    StartedNoNews(s.d, x, how, m);
  }

  lemma TornAway(s: System, how: Launch, m: Msg, n: nat)
    requires Inv(s)
    ensures Away(s, m, n) ==> Away(Next(s, TornDown(how)), m, n)
    ensures Unknown(s, m) ==> Unknown(Next(s, TornDown(how)), m)
  {
    hide Msgs;
    hide SentOf;
    hide Carries;
    hide Settled;
    CloseLastSame(s);
    if s.d.stopping {
      SettledNoNews(s.d, how, m);
      SettledIs(s.d, how);
    }
  }

  lemma ReadClosedAway(s: System, m: Msg, n: nat)
    requires Inv(s)
    ensures Away(s, m, n) ==> Away(Next(s, ReadClosed), m, n)
    ensures Unknown(s, m) ==> Unknown(Next(s, ReadClosed), m)
  {
    hide Msgs;
    hide SentOf;
    hide Carries;
    hide Left;
    if s.d.running && Last(s).closed {
      ClosedNoNews(s, m);
    }
  }

  lemma RestartAway(s: System, alive: bool, live: bool, m: Msg, n: nat)
    requires Inv(s)
    ensures Away(s, m, n) ==> Away(Next(s, Restart(alive, live)), m, n)
    ensures Unknown(s, m) ==> Unknown(Next(s, Restart(alive, live)), m)
  {
    hide Msgs;
    hide SentOf;
    hide Carries;
    hide CountLines;
    CloseLastSame(s);
    NothingCarried(m);
    var e := Adopted(s.d, false, live);
    PutNoNews(e, Attach, m);
    var c := Command(CountLines(s.d.inFile) + 1, Attach);
    OneCarries(s.d.inFile, c, m);
  }

  lemma NothingCarried(m: Msg)
    ensures !Carries([], m)
  {
  }

  lemma OneCarries(cs: seq<Command>, c: Command, m: Msg)
    requires c.op != Send(m)
    ensures Carries(cs + [c], m) <==> Carries(cs, m)
  {
    CarriesPlus(cs, [c], m);
    assert [c][0] == c;
  }

  /** A step that does not give the message keeps it away from the first `n` hosts, and unknown if it was. */
  lemma StepAway(s: System, step: Step, m: Msg, n: nat)
    requires Inv(s) && !(step.GiveMessage? && step.m == m)
    ensures Away(s, m, n) ==> Away(Next(s, step), m, n)
    ensures Unknown(s, m) ==> Unknown(Next(s, step), m)
  {
    match step
    case GiveMessage(x, other, how) => GiveAway(s, x, other, how, m, n);
    case HostPolls(more) => PollAway(s, more, m, n);
    case ReadClosed => ReadClosedAway(s, m, n);
    case TornDown(how) => TornAway(s, how, m, n);
    case Restart(alive, live) => RestartAway(s, alive, live, m, n);
    case _ => RestAway(s, step, m, n);
  }

  lemma RestAway(s: System, step: Step, m: Msg, n: nat)
    requires step.GiveCommand? || step.HostCloses? || step.ReadState? || step.End? || step.Dispose?
    ensures Away(s, m, n) ==> Away(Next(s, step), m, n)
    ensures Unknown(s, m) ==> Unknown(Next(s, step), m)
  {
    hide Carries;
    CloseLastSame(s);
    if step.GiveCommand? && !step.op.Send? {
      PutNoNews(s.d, step.op, m);
    }
  }

  /** What was never given is nowhere. */
  lemma {:induction false} NeverGiven(run: seq<Step>, m: Msg)
    requires m !in After(run).given
    ensures Unknown(After(run), m)
  {
    if run != [] {
      var front, step := run[..|run| - 1], run[|run| - 1];
      GivenIs(After(front), step);
      NeverGiven(front, m);
      RunKeeps(front);
      StepAway(After(front), step, m, 0);
    }
  }

  // ------------------------------------------------------------------ the message of another run

  /** The steps taken from a system on. */
  function Then(s: System, run: seq<Step>): System {
    if run == [] then s else Next(Then(s, run[..|run| - 1]), run[|run| - 1])
  }

  lemma {:induction false} ThenAfter(front: seq<Step>, run: seq<Step>)
    ensures Then(After(front), run) == After(front + run)
  {
    if run == [] {
      assert front + run == front;
    } else {
      ThenAfter(front, run[..|run| - 1]);
      assert (front + run)[..|front + run| - 1] == front + run[..|run| - 1];
    }
  }

  lemma {:induction false} AwayOverRuns(s: System, run: seq<Step>, m: Msg, n: nat)
    requires Inv(s) && Away(s, m, n)
    requires forall i :: 0 <= i < |run| ==> !(run[i].GiveMessage? && run[i].m == m)
    ensures Inv(Then(s, run)) && Away(Then(s, run), m, n)
  {
    if run != [] {
      AwayOverRuns(s, run[..|run| - 1], m, n);
      StepAway(Then(s, run[..|run| - 1]), run[|run| - 1], m, n);
      StepKeeps(Then(s, run[..|run| - 1]), run[|run| - 1]);
    }
  }

  /** The host that runs has been told to stop. */
  ghost predicate StopAsked(s: System) { exists i :: 0 <= i < |s.d.inFile| && s.d.inFile[i].op.Stop? }

  lemma StepAsks(s: System, step: Step)
    requires Inv(s) && (s.d.running && s.d.waiting != [] ==> StopAsked(s))
    ensures var t := Next(s, step); t.d.running && t.d.waiting != [] ==> StopAsked(t)
  {
    hide Msgs;
    hide SentOf;
    hide ApplyAll;
    hide Left;
    hide CountLines;
    var t := Next(s, step);
    if t.d.running && t.d.waiting != [] {
      match step
      case TornDown(how) => if s.d.stopping { SettledIs(s.d, how); }
      case GiveMessage(x, other, how) =>
        if s.d.running && s.d.waiting == [] {
          assert t.d.inFile[|s.d.inFile|].op.Stop?;
        }
        if s.d.running && s.d.waiting != [] {
          var i :| 0 <= i < |s.d.inFile| && s.d.inFile[i].op.Stop?;
          assert t.d.inFile[i].op.Stop?;
        }
      case GiveCommand(op) =>
        var i :| 0 <= i < |s.d.inFile| && s.d.inFile[i].op.Stop?;
        assert t.d.inFile[i].op.Stop?;
      case _ =>
    }
  }

  /** Whoever waits while a host runs waits behind a Stop for that host. */
  lemma {:induction false} WaitsBehindStop(run: seq<Step>)
    ensures var s := After(run); s.d.running && s.d.waiting != [] ==> StopAsked(s)
  {
    if run != [] {
      WaitsBehindStop(run[..|run| - 1]);
      RunKeeps(run[..|run| - 1]);
      StepAsks(After(run[..|run| - 1]), run[|run| - 1]);
    }
  }

  /**
   * Over every run: where a new message goes while a host runs. Into that host's in.jsonl exactly when nothing waits
   * and its agent is live or the message's run is the one it started with; otherwise to the end of the queue, behind a
   * Stop.
   */
  lemma GivenWhileRunning(run: seq<Step>, m: Msg, other: bool, how: Launch)
    requires After(run).d.running && m !in After(run).given
    ensures var s, t := After(run), After(run + [GiveMessage(m, other, how)]);
            && |t.hosts| == |s.hosts| && t.d.running
            && (m in Msgs(t.d.inFile) <==> s.d.waiting == [] && (s.d.live || !other))
            && (m !in Msgs(t.d.inFile) ==>
                  t.d.waiting == s.d.waiting + [m] && StopAsked(t) && Away(t, m, |s.hosts|))
  {
    hide Msgs;
    var s, step := After(run), GiveMessage(m, other, how);
    var t := After(run + [step]);
    assert (run + [step])[..|run|] == run;
    NeverGiven(run, m);
    RunKeeps(run);
    WaitsBehindStop(run + [step]);
    MsgsCarry(t.d.inFile, m);
    OneCarries(s.d.inFile, Command(s.d.n + 1, Stop), m);
    assert (s.d.inFile + [Command(s.d.n + 1, Send(m))])[|s.d.inFile|].op == Send(m);
    hide After;
  }

  /**
   * A message of another run, given while the host that runs has no live agent: that host, and none before it, ever
   * delivers it or finds it in its in.jsonl, whatever follows.
   */
  lemma OtherRunNeverReachesHost(front: seq<Step>, m: Msg, how: Launch, run: seq<Step>)
    requires After(front).d.running && !After(front).d.live && m !in After(front).given
    requires forall i :: 0 <= i < |run| ==> !(run[i].GiveMessage? && run[i].m == m)
    ensures var n, t := |After(front).hosts|, After(front + [GiveMessage(m, true, how)] + run);
            && n <= |t.hosts| && (forall j :: 0 <= j < n ==> m !in t.hosts[j].applied)
            && (|t.hosts| == n && t.mine ==> m !in Msgs(t.d.inFile))
  {
    hide Msgs;
    hide Away;
    var given := front + [GiveMessage(m, true, how)];
    GivenWhileRunning(front, m, true, how);
    RunKeeps(given);
    var n := |After(front).hosts|;
    AwayOverRuns(After(given), run, m, n);
    ThenAfter(given, run);
    var t := After(given + run);
    AwayIs(t, m, n);
    MsgsCarry(t.d.inFile, m);
  }

  lemma AwayIs(s: System, m: Msg, n: nat)
    requires Away(s, m, n)
    ensures n <= |s.hosts| && (forall j :: 0 <= j < n ==> m !in s.hosts[j].applied)
    ensures |s.hosts| == n && s.mine ==> !Carries(s.d.inFile, m)
  {
  }

  lemma {:induction false} DeliveredBy(hosts: seq<Host>, m: Msg)
    requires m in Delivered(hosts)
    ensures exists j :: 0 <= j < |hosts| && m in hosts[j].applied
  {
    var front, h := hosts[..|hosts| - 1], hosts[|hosts| - 1];
    if m in Delivered(front) {
      DeliveredBy(front, m);
      var j :| 0 <= j < |front| && m in front[j].applied;
      assert m in hosts[j].applied;
    } else {
      assert m in hosts[|hosts| - 1].applied;
    }
  }

  /**
   * And where nothing is lost it gets to one launched later: it waits, or a later host has delivered it or is to read
   * it in its own in.jsonl.
   */
  lemma OtherRunGetsNewHost(front: seq<Step>, m: Msg, how: Launch, run: seq<Step>)
    requires After(front).d.running && !After(front).d.live && m !in After(front).given
    requires forall i :: 0 <= i < |run| ==> !(run[i].GiveMessage? && run[i].m == m)
    requires how.Launched? && forall step :: step in front || step in run ==> Lossless(step)
    ensures var n, t := |After(front).hosts|, After(front + [GiveMessage(m, true, how)] + run);
            || m in t.d.waiting
            || (exists j :: n <= j < |t.hosts| && m in t.hosts[j].applied)
            || (|t.hosts| > n && t.mine && m in Msgs(t.d.inFile))
  {
    var step := GiveMessage(m, true, how);
    assert Lossless(step);
    hide *;
    OtherRunNeverReachesHost(front, m, how, run);
    LosslessAll(front, step, run);
    NothingLost(front + [step] + run);
    GivenHas(front, step, run);
    var n, t := |After(front).hosts|, After(front + [step] + run);
    FlowHas(t, m);
    if m in Delivered(t.hosts) {
      DeliveredBy(t.hosts, m);
    } else if m in InPlay(t) {
      InPlayIsFiled(t, m);
    }
  }

  lemma LosslessAll(front: seq<Step>, step: Step, run: seq<Step>)
    requires Lossless(step) && forall x :: x in front || x in run ==> Lossless(x)
    ensures var all := front + [step] + run; forall i :: 0 <= i < |all| ==> Lossless(all[i])
  {
    hide Lossless;
    var all := front + [step] + run;
    forall i | 0 <= i < |all| ensures Lossless(all[i]) {
      assert i < |front| ==> all[i] in front;
      assert i > |front| ==> all[i] == run[i - |front| - 1];
    }
  }

  lemma FlowHas(s: System, m: Msg)
    requires m in Flow(s)
    ensures m in Delivered(s.hosts) || m in InPlay(s) || m in s.d.waiting
  {
    hide Delivered;
    hide InPlay;
  }

  lemma {:induction false} GivenHas(front: seq<Step>, step: Step, run: seq<Step>)
    requires step.GiveMessage?
    ensures step.m in After(front + [step] + run).given
  {
    if run == [] {
      assert front + [step] + run == front + [step] && (front + [step])[..|front|] == front;
      GivenIs(After(front), step);
    } else {
      var all, last := front + [step] + run, run[|run| - 1];
      GivenHas(front, step, run[..|run| - 1]);
      assert all[..|all| - 1] == front + [step] + run[..|run| - 1];
      GivenIs(After(all[..|all| - 1]), last);
    }
  }

  lemma InPlayIsFiled(s: System, m: Msg)
    requires m in InPlay(s)
    ensures s.mine && m in Msgs(s.d.inFile)
  {
    hide Msgs;
    var k := if Last(s).closed then Max(Last(s).k, s.base) else Last(s).k;
    var file := s.d.inFile;
    NoMsgs();
    MsgsCarry(file, m);
    MsgsCarry(file[k..], m);
    assert file[k..] == file[k..|file|];
    CarriesPart(file, k, |file|, m);
  }
}
