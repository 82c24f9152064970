/**
 * Runs of the host protocol: one session's daemon, the hosts it launches one after another, and every order in which
 * messages, polls, closes, stops and daemon restarts can follow each other.
 */
module HostRuns {
  import opened Prelude
  import opened HostProtocol

  /**
   * `hosts`: every host launched, the last one being the one in.jsonl is for while `mine`. `base`: how many commands
   * the file held when the daemon now at work took it. `given`: the messages send was given, in order.
   */
  datatype System = System(d: Daemon, hosts: seq<Host>, mine: bool, base: nat, given: seq<Msg>)

  datatype Step =
    | GiveMessage(m: Msg, other: bool, how: Launch) // send
    | GiveCommand(op: Op)                         // interrupt, mode, decide, ...
    | HostPolls(more: nat)                        // the host reads up to `more` commands
    | HostCloses                                  // its agent ended: it writes `closed` and reads no more
    | ReadClosed                                  // the daemon reads that line
    | ReadState(live: bool)                       // the daemon reads a record
    | TornDown(how: Launch)                       // the old tree is gone; waiting messages start a new host
    | End                                         // the host died, hung or was ended
    | Dispose
    | Restart(alive: bool, live: bool)            // another daemon takes over; without a folder it knows nothing

  const START := System(FRESH, [], false, 0, [])

  function Last(s: System): Host
    requires s.hosts != []
  {
    s.hosts[|s.hosts| - 1]
  }

  function WithLast(s: System, h: Host): System {
    if s.hosts == [] then s else s.(hosts := s.hosts[..|s.hosts| - 1] + [h])
  }

  /** The daemon's step `d`; a launch puts a new host over the new in.jsonl. */
  function Launching(s: System, d: Daemon): System {
    if d.launches > s.d.launches then s.(d := d, hosts := s.hosts + [Host(0, 0, [], false)], mine := true, base := 0)
    else s.(d := d)
  }

  function CloseLast(s: System): System {
    if s.hosts == [] then s else WithLast(s, Last(s).(closed := true))
  }

  function Next(s: System, step: Step): System {
    match step
    case GiveMessage(m, other, how) => Launching(s.(given := s.given + [m]), Given(s.d, m, other, how))
    case GiveCommand(op) => if s.d.running && !op.Send? then s.(d := Put(s.d, op)) else s
    case HostPolls(more) =>
      if s.mine && s.hosts != [] && !Last(s).closed && Last(s).k <= |s.d.inFile| then
        WithLast(s, ApplyAll(Last(s), s.d.inFile[Last(s).k..Min(Last(s).k + more, |s.d.inFile|)]))
      else s
    case HostCloses => if s.mine then CloseLast(s) else s
    case ReadClosed =>
      if s.d.running && s.hosts != [] && Last(s).closed then s.(d := Closed(s.d, Last(s).consumed)) else s
    case ReadState(live) => s.(d := s.d.(live := live))
    case TornDown(how) => if s.d.stopping then Launching(CloseLast(s).(mine := false), Settled(s.d, how)) else s
    case End => s.(d := Ended(s.d))
    case Dispose => s.(d := Disposed(s.d))
    case Restart(alive, live) =>
      if !s.mine then s.(d := if s.d.inFile == [] then FRESH.(launches := s.d.launches) else Adopted(s.d, false, live))
      else if alive then
        var d := Adopted(s.d, true, live); s.(d := d, base := |d.inFile|)
      else CloseLast(s).(d := Adopted(s.d, false, live))
  }

  function After(run: seq<Step>): System {
    if run == [] then START else Next(After(run[..|run| - 1]), run[|run| - 1])
  }

  // ------------------------------------------------------------------ what is where

  /** The messages among commands. */
  function Msgs(cs: seq<Command>): seq<Msg> {
    if cs == [] then []
    else Msgs(cs[..|cs| - 1]) + if cs[|cs| - 1].op.Send? then [cs[|cs| - 1].op.msg] else []
  }

  function SentOf(cs: seq<Command>): seq<Sent> {
    if cs == [] then []
    else SentOf(cs[..|cs| - 1]) + if cs[|cs| - 1].op.Send? then [Sent(cs[|cs| - 1].n, cs[|cs| - 1].op.msg)] else []
  }

  /** Everything hosts have delivered to their agents, in order. */
  function Delivered(hosts: seq<Host>): seq<Msg> {
    if hosts == [] then [] else Delivered(hosts[..|hosts| - 1]) + hosts[|hosts| - 1].applied
  }

  /**
   * The messages of in.jsonl still to be delivered: by the host that reads it, or by this daemon's sending them again.
   */
  function InPlay(s: System): seq<Msg> {
    if s.hosts == [] || !s.mine then []
    else if !Last(s).closed then Msgs(Drop(s.d.inFile, Last(s).k))
    else if s.d.running then Msgs(Drop(s.d.inFile, Max(Last(s).k, s.base)))
    else []
  }

  function Drop<T>(a: seq<T>, k: int): seq<T> {
    if 0 <= k <= |a| then a[k..] else []
  }

  /** Delivered, to be delivered from in.jsonl, and waiting: in this order. */
  function Flow(s: System): seq<Msg> {
    Delivered(s.hosts) + InPlay(s) + s.d.waiting
  }

  // ------------------------------------------------------------------ the invariant

  /** Command numbers are 1, 2, 3, ... */
  ghost predicate Numbered(cs: seq<Command>) {
    forall i :: 0 <= i < |cs| ==> cs[i].n == i + 1
  }

  ghost predicate Inv(s: System) {
    && (s.d.stopping ==> !s.d.running)
    && (s.d.running ==>
      s.mine && s.d.n == |s.d.inFile| && s.base <= |s.d.inFile| && s.d.sends == SentOf(s.d.inFile[s.base..]))
    && (s.mine ==>
          && s.hosts != [] && Numbered(s.d.inFile)
          && Last(s).k <= |s.d.inFile| && Last(s).consumed == Last(s).k
          && Last(s).applied == Msgs(s.d.inFile[..Last(s).k])
          && (!s.d.running ==> s.d.stopping))
    && (!s.mine && s.hosts != [] ==> Last(s).closed)
    && (!s.d.running && !s.d.stopping ==> s.d.waiting == [])
  }

  // ------------------------------------------------------------------ small laws

  lemma {:induction false} MsgsAppend(a: seq<Command>, b: seq<Command>)
    ensures Msgs(a + b) == Msgs(a) + Msgs(b)
  {
    if b == [] {
      assert a + b == a;
    } else {
      MsgsAppend(a, b[..|b| - 1]);
      assert (a + b)[..|a + b| - 1] == a + b[..|b| - 1];
    }
  }

  lemma MsgsOne(cs: seq<Command>, c: Command)
    ensures Msgs(cs + [c]) == Msgs(cs) + if c.op.Send? then [c.op.msg] else []
    ensures SentOf(cs + [c]) == SentOf(cs) + if c.op.Send? then [Sent(c.n, c.op.msg)] else []
  {
    assert (cs + [c])[..|cs|] == cs;
  }

  lemma {:induction false} CountNumbered(cs: seq<Command>)
    requires Numbered(cs)
    ensures CountLines(cs) == |cs|
  {
    if cs != [] {
      CountNumbered(cs[..|cs| - 1]);
    }
  }

  /** A host that reads on in a numbered file: its count, its greatest number and what it delivered agree. */
  lemma {:induction false} ReadsOn(h: Host, file: seq<Command>, upTo: nat)
    requires Numbered(file) && h.k <= upTo <= |file| && h.consumed == h.k && h.applied == Msgs(file[..h.k])
    ensures ApplyAll(h, file[h.k..upTo]) == Host(upTo, upTo, Msgs(file[..upTo]), h.closed)
    decreases upTo
  {
    hide Msgs;
    if h.k < upTo {
      ReadsOn(h, file, upTo - 1);
      assert file[h.k..upTo][..upTo - h.k - 1] == file[h.k..upTo - 1];
      assert file[..upTo] == file[..upTo - 1] + [file[upTo - 1]];
      MsgsOne(file[..upTo - 1], file[upTo - 1]);
    } else {
      assert file[h.k..upTo] == [];
    }
  }

  lemma LeftOne(sends: seq<Sent>, x: seq<Sent>, k: nat)
    requires |x| <= 1
    ensures Left(sends + x, k) == Left(sends, k) + if x != [] && x[0].n > k then [x[0].msg] else []
  {
    if x == [] {
      assert sends + x == sends && Left(sends, k) + [] == Left(sends, k);
    } else {
      assert (sends + x)[..|sends|] == sends;
    }
  }

  /** The sends left over are the messages of the file past what was consumed. */
  lemma {:induction false} LeftIs(file: seq<Command>, base: nat, k: nat)
    requires Numbered(file) && base <= |file| && k <= |file|
    ensures Left(SentOf(file[base..]), k) == Msgs(file[Max(base, k)..])
    decreases |file|
  {
    if base == |file| {
      assert file[base..] == [] && file[Max(base, k)..] == [];
    } else {
      var front, c := file[..|file| - 1], file[|file| - 1];
      assert file[base..] == front[base..] + [c];
      var was, more := SentOf(front[base..]), if c.op.Send? then [Sent(c.n, c.op.msg)] else [];
      MsgsOne(front[base..], c);
      LeftOne(was, more, k);
      if k == |file| {
        LeftIs(front, base, k - 1);
        assert front[Max(base, k - 1)..] == [] && file[Max(base, k)..] == [];
        assert Left(was, k - 1) == [];
        hide Left;
        hide SentOf;
        LeftNone(was, k - 1, k);
      } else {
        LeftIs(front, base, k);
        hide Left;
        hide SentOf;
        assert file[Max(base, k)..] == front[Max(base, k)..] + [c];
        MsgsOne(front[Max(base, k)..], c);
      }
    }
  }

  lemma {:induction false} LeftNone(sends: seq<Sent>, j: nat, k: nat)
    requires j <= k && Left(sends, j) == []
    ensures Left(sends, k) == []
  {
    if sends != [] {
      LeftNone(sends[..|sends| - 1], j, k);
    }
  }

  /** The daemon's count, its sends and the file agree, for a file it wrote from the start. */
  ghost predicate Filed(d: Daemon) {
    d.n == |d.inFile| && Numbered(d.inFile) && d.sends == SentOf(d.inFile)
  }

  lemma PutSendIs(d: Daemon, m: Msg)
    requires Filed(d)
    ensures Filed(PutSend(d, m)) && Msgs(PutSend(d, m).inFile) == Msgs(d.inFile) + [m]
  {
    MsgsOne(d.inFile, Command(d.n + 1, Send(m)));
  }

  lemma {:induction false} PutAllIs(d: Daemon, ms: seq<Msg>)
    requires Filed(d)
    ensures Filed(PutAll(d, ms)) && Msgs(PutAll(d, ms).inFile) == Msgs(d.inFile) + ms
    ensures var e := PutAll(d, ms); e == d.(n := e.n, sends := e.sends, inFile := e.inFile)
    decreases |ms|
  {
    hide Msgs;
    hide SentOf;
    if ms != [] {
      PutAllIs(d, ms[..|ms| - 1]);
      PutSendIs(PutAll(d, ms[..|ms| - 1]), ms[|ms| - 1]);
      assert ms == ms[..|ms| - 1] + [ms[|ms| - 1]];
    }
  }

  lemma StartedIs(d: Daemon, first: Msg, how: Launch)
    requires !d.running
    ensures var e := Started(d, first, how);
            && (how.Launched? ==> Filed(e) && Msgs(e.inFile) == [first])
            && e.running == how.Launched? && e.waiting == d.waiting && e.stopping == d.stopping &&
              e.disposed == d.disposed
            && e.launches == d.launches + (if how.Launched? then 1 else 0)
  {
    var c := Command(1, Send(first));
    MsgsOne([], c);
    assert [] + [c] == [c];
  }

  lemma DeliveredOne(hosts: seq<Host>, h: Host)
    ensures Delivered(hosts + [h]) == Delivered(hosts) + h.applied
  {
    assert (hosts + [h])[..|hosts|] == hosts;
  }

  // ------------------------------------------------------------------ what a step does to the flow

  /** `b` is `a` with one stretch left out. */
  ghost predicate Trimmed(a: seq<Msg>, b: seq<Msg>) {
    exists x, y, z :: a == x + y + z && b == x + z
  }

  lemma TrimmedBy(x: seq<Msg>, y: seq<Msg>, z: seq<Msg>, a: seq<Msg>, b: seq<Msg>)
    requires a == x + y + z && b == x + z
    ensures Trimmed(a, b)
  {
  }

  lemma Same(a: seq<Msg>, b: seq<Msg>)
    requires a == b
    ensures Trimmed(a, b)
  {
    TrimmedBy(a, [], [], a, b);
  }

  function News(step: Step): seq<Msg> {
    if step.GiveMessage? then [step.m] else []
  }

  /** Steps on which the protocol promises delivery: launches succeed, hosts end by `closed`, the daemon stays. */
  predicate Lossless(step: Step) {
    match step
    case GiveMessage(_, _, how) => how.Launched?
    case TornDown(how) => how.Launched?
    case End => false
    case Dispose => false
    case Restart(_, _) => false
    case _ => true
  }

  /** What such steps keep besides: one daemon, not disposed, whose hosts close before it stops them. */
  ghost predicate Kept(s: System) {
    s.base == 0 && !s.d.disposed && (s.mine && !s.d.running && s.hosts != [] ==> Last(s).closed)
  }

  /** A step keeps the invariant and at most leaves a stretch of the flow out; a lossless one leaves nothing out. */
  ghost predicate Steps(s: System, step: Step) {
    var t := Next(s, step);
    && Inv(t)
    && Trimmed(Flow(s) + News(step), Flow(t))
    && (Lossless(step) && Kept(s) ==> Kept(t) && Flow(t) == Flow(s) + News(step))
  }

  /** Appending to in.jsonl a command the last host has not read. */
  lemma AppendsInPlay(s: System, c: Command)
    requires Inv(s) && s.d.running
    ensures var d := s.d.(inFile := s.d.inFile + [c]);
            InPlay(s.(d := d)) == InPlay(s) + if c.op.Send? then [c.op.msg] else []
    ensures s.d.inFile[s.base..] + [c] == (s.d.inFile + [c])[s.base..]
    ensures (s.d.inFile + [c])[..Last(s).k] == s.d.inFile[..Last(s).k]
  {
    hide Msgs;
    hide SentOf;
    var file, more := s.d.inFile, s.d.inFile + [c];
    var k := if Last(s).closed then Max(Last(s).k, s.base) else Last(s).k;
    assert more[k..] == file[k..] + [c];
    MsgsOne(file[k..], c);
  }

  lemma CommandSteps(s: System, op: Op)
    requires Inv(s) && s.d.running && !op.Send?
    ensures Inv(s.(d := Put(s.d, op))) && Flow(s.(d := Put(s.d, op))) == Flow(s)
  {
    hide Msgs;
    hide SentOf;
    hide Delivered;
    var c := Command(s.d.n + 1, op);
    AppendsInPlay(s, c);
    MsgsOne(s.d.inFile[s.base..], c);
  }

  lemma GiveRunning(s: System, m: Msg)
    requires Inv(s) && s.d.running && s.d.waiting == []
    ensures var t := s.(d := PutSend(s.d, m).(live := true)); Inv(t) && Flow(t) == Flow(s) + [m]
  {
    hide Msgs;
    hide SentOf;
    hide Delivered;
    var c := Command(s.d.n + 1, Send(m));
    AppendsInPlay(s, c);
    MsgsOne(s.d.inFile[s.base..], c);
  }

  /** A new host over a new file: what was delivered stays, the file's messages are in play. */
  lemma LaunchIs(s: System, d: Daemon)
    requires d.launches > s.d.launches && Filed(d) && d.running && !d.stopping
    ensures Inv(Launching(s, d)) && Flow(Launching(s, d)) == Delivered(s.hosts) + Msgs(d.inFile) + d.waiting
    ensures Last(Launching(s, d)) == Host(0, 0, [], false) && Launching(s, d).base == 0 && Launching(s, d).mine
  {
    hide Msgs;
    hide SentOf;
    hide Delivered;
    var h := Host(0, 0, [], false);
    DeliveredOne(s.hosts, h);
    assert d.inFile[0..] == d.inFile && d.inFile[..0] == [];
    assert Msgs([]) == [] by { NoMsgs(); }
    assert Delivered(s.hosts) + [] == Delivered(s.hosts);
  }

  lemma NoMsgs()
    ensures Msgs([]) == []
  {
  }

  lemma GiveSteps(s: System, m: Msg, other: bool, how: Launch)
    requires Inv(s)
    ensures Steps(s, GiveMessage(m, other, how))
  {
    hide Msgs;
    hide SentOf;
    hide Delivered;
    hide Started;
    var g := s.(given := s.given + [m]);
    var t := Next(s, GiveMessage(m, other, how));
    if s.d.stopping || s.d.waiting != [] {
      assert Flow(t) == Flow(s) + [m];
    } else if s.d.running && !s.d.live && other {
      CommandSteps(s, Stop);
      assert Flow(t) == Flow(s) + [m];
    } else if !s.d.running {
      assert InPlay(s) == [] && Flow(s) == Delivered(s.hosts);
      StartedIs(s.d, m, how);
      if how.Launched? {
        LaunchIs(g, Started(s.d, m, how).(live := true));
        assert Flow(t) == Flow(s) + [m];
      } else {
        assert Flow(t) == Flow(s);
        TrimmedBy(Flow(s), [m], [], Flow(s) + [m], Flow(t));
      }
    } else {
      GiveRunning(s, m);
      assert Flow(t) == Flow(s) + [m];
    }
    if Flow(t) == Flow(s) + [m] {
      Same(Flow(s) + [m], Flow(t));
    }
  }

  lemma WithLastIs(s: System, h: Host)
    requires s.hosts != []
    ensures Delivered(s.hosts) == Delivered(s.hosts[..|s.hosts| - 1]) + Last(s).applied
    ensures Delivered(WithLast(s, h).hosts) == Delivered(s.hosts[..|s.hosts| - 1]) + h.applied
    ensures WithLast(s, h).hosts != [] && Last(WithLast(s, h)) == h &&
      WithLast(s, h) == s.(hosts := WithLast(s, h).hosts)
  {
    DeliveredOne(s.hosts[..|s.hosts| - 1], h);
  }

  lemma SplitMsgs(file: seq<Command>, i: nat, j: nat)
    requires i <= j <= |file|
    ensures Msgs(file[i..]) == Msgs(file[i..j]) + Msgs(file[j..])
    ensures Msgs(file[..j]) == Msgs(file[..i]) + Msgs(file[i..j])
  {
    hide Msgs;
    assert file[i..] == file[i..j] + file[j..] && file[..j] == file[..i] + file[i..j];
    MsgsAppend(file[i..j], file[j..]);
    MsgsAppend(file[..i], file[i..j]);
  }

  lemma PollSteps(s: System, more: nat)
    requires Inv(s)
    ensures Steps(s, HostPolls(more))
  {
    hide Msgs;
    hide SentOf;
    hide Delivered;
    hide ApplyAll;
    var t := Next(s, HostPolls(more));
    if s.mine && !Last(s).closed {
      var h, file := Last(s), s.d.inFile;
      var j := Min(h.k + more, |file|);
      ReadsOn(h, file, j);
      WithLastIs(s, ApplyAll(h, file[h.k..j]));
      SplitMsgs(file, h.k, j);
      assert Flow(t) == Flow(s);
    }
    assert Flow(s) + [] == Flow(s);
    Same(Flow(s) + [], Flow(t));
  }

  /** Once the last host reads no more, only what this daemon sent and it did not read is still in play. */
  lemma ClosedIs(s: System)
    requires Inv(s) && s.hosts != []
    ensures Inv(CloseLast(s)) && Delivered(CloseLast(s).hosts) == Delivered(s.hosts)
    ensures Last(CloseLast(s)) == Last(s).(closed := true) && CloseLast(s) == s.(hosts := CloseLast(s).hosts)
    ensures Trimmed(Flow(s), Flow(CloseLast(s)))
    ensures s.mine && s.d.running && s.base == 0 ==> Flow(CloseLast(s)) == Flow(s)
    ensures Last(s).closed ==> Flow(CloseLast(s)) == Flow(s)
  {
    hide Msgs;
    hide SentOf;
    hide Delivered;
    var t := CloseLast(s);
    WithLastIs(s, Last(s).(closed := true));
    if s.mine && !Last(s).closed {
      var k, file := Last(s).k, s.d.inFile;
      if s.d.running {
        var j := Max(k, s.base);
        SplitMsgs(file, k, j);
        assert s.base == 0 ==> file[k..j] == [];
        NoMsgs();
        TrimmedBy(Delivered(s.hosts), Msgs(file[k..j]), Msgs(file[j..]) + s.d.waiting, Flow(s), Flow(t));
      } else {
        TrimmedBy(Delivered(s.hosts), InPlay(s), s.d.waiting, Flow(s), Flow(t));
      }
    } else {
      Same(Flow(s), Flow(t));
    }
  }

  lemma CloseSteps(s: System)
    requires Inv(s)
    ensures Steps(s, HostCloses)
  {
    hide Msgs;
    hide SentOf;
    hide Delivered;
    assert Flow(s) + [] == Flow(s);
    if s.mine {
      ClosedIs(s);
    } else {
      Same(Flow(s) + [], Flow(s));
    }
  }

  lemma ReadClosedSteps(s: System)
    requires Inv(s)
    ensures Steps(s, ReadClosed)
  {
    hide Msgs;
    hide SentOf;
    hide Delivered;
    hide Left;
    var t := Next(s, ReadClosed);
    assert Flow(s) + [] == Flow(s);
    if s.d.running && Last(s).closed {
      var k, file := Last(s).k, s.d.inFile;
      LeftIs(file, s.base, k);
      var left := Left(s.d.sends, Last(s).consumed);
      assert left == InPlay(s) && InPlay(t) == [];
      if left != [] && !s.d.disposed {
        assert Flow(t) == Flow(s);
        Same(Flow(s), Flow(t));
      } else {
        TrimmedBy(Delivered(s.hosts), left, s.d.waiting, Flow(s), Flow(t));
      }
    } else {
      Same(Flow(s) + [], Flow(t));
    }
  }

  lemma SettledIs(d: Daemon, how: Launch)
    requires !d.running
    ensures var e := Settled(d, how);
            var starts := d.waiting != [] && !d.disposed && how.Launched?;
            && !e.stopping && e.waiting == [] && e.disposed == d.disposed && e.running == starts
            && (starts ==> e.launches > d.launches && Filed(e) && Msgs(e.inFile) == d.waiting)
            && (!starts ==> e.launches == d.launches)
  {
    hide Msgs;
    hide SentOf;
    if d.waiting != [] && !d.disposed {
      var e := d.(stopping := false, waiting := [], inFile := if how.InUse? then d.inFile else []);
      StartedIs(e, d.waiting[0], how);
      if how.Launched? {
        PutAllIs(Started(e, d.waiting[0], how), d.waiting[1..]);
        assert [d.waiting[0]] + d.waiting[1..] == d.waiting;
      }
    }
  }

  lemma TornSteps(s: System, how: Launch)
    requires Inv(s)
    ensures Steps(s, TornDown(how))
  {
    hide Msgs;
    hide SentOf;
    hide Delivered;
    hide Settled;
    assert Flow(s) + [] == Flow(s);
    var t := Next(s, TornDown(how));
    if s.d.stopping {
      SettledIs(s.d, how);
      Torn(s);
      if s.d.waiting != [] && !s.d.disposed && how.Launched? {
        LaunchIs(CloseLast(s).(mine := false), Settled(s.d, how));
        TrimmedBy(Delivered(s.hosts), InPlay(s), s.d.waiting, Flow(s), Flow(t));
      } else {
        TrimmedBy(Delivered(s.hosts), InPlay(s) + s.d.waiting, [], Flow(s), Flow(t));
      }
    } else {
      Same(Flow(s) + [], Flow(t));
    }
  }

  /** With its tree gone and its folder removed, the last host is done. */
  lemma Torn(s: System)
    requires Inv(s)
    ensures Delivered(CloseLast(s).hosts) == Delivered(s.hosts)
    ensures CloseLast(s) == s.(hosts := CloseLast(s).hosts)
    ensures s.hosts != [] <==> CloseLast(s).hosts != []
    ensures s.hosts != [] ==> Last(CloseLast(s)).closed
  {
    if s.hosts != [] {
      ClosedIs(s);
    }
  }

  lemma EndSteps(s: System)
    requires Inv(s)
    ensures Steps(s, End) && Steps(s, Dispose)
  {
    hide Msgs;
    hide SentOf;
    hide Delivered;
    assert Flow(s) + [] == Flow(s);
    var t := Next(s, End);
    if InPlay(t) == InPlay(s) {
      Same(Flow(s), Flow(t));
    } else {
      assert InPlay(t) == [];
      TrimmedBy(Delivered(s.hosts), InPlay(s), s.d.waiting, Flow(s), Flow(t));
    }
    var u := Next(s, Dispose);
    TrimmedBy(Delivered(s.hosts) + InPlay(s), s.d.waiting, [], Flow(s), Flow(u));
  }

  lemma RestartSteps(s: System, alive: bool, live: bool)
    requires Inv(s)
    ensures Steps(s, Restart(alive, live))
  {
    hide Msgs;
    hide SentOf;
    hide Delivered;
    hide CountLines;
    assert Flow(s) + [] == Flow(s);
    var t := Next(s, Restart(alive, live));
    if !s.mine {
      TrimmedBy(Delivered(s.hosts), InPlay(s) + s.d.waiting, [], Flow(s), Flow(t));
    } else {
      CountNumbered(s.d.inFile);
      var c := Command(|s.d.inFile| + 1, Attach);
      if alive {
        AttachIs(s.d.inFile, c, Last(s).k);
        if Last(s).closed {
          TrimmedBy(Delivered(s.hosts), InPlay(s) + s.d.waiting, [], Flow(s), Flow(t));
        } else {
          TrimmedBy(Delivered(s.hosts) + InPlay(s), s.d.waiting, [], Flow(s), Flow(t));
        }
      } else {
        ClosedIs(s);
        TrimmedBy(Delivered(s.hosts), InPlay(s) + s.d.waiting, [], Flow(s), Flow(t));
      }
    }
  }

  /** The adopting daemon's own command carries no message and no send. */
  lemma AttachIs(file: seq<Command>, c: Command, k: nat)
    requires !c.op.Send? && k <= |file|
    ensures var more := file + [c];
            && Msgs(more[k..]) == Msgs(file[k..]) && more[..k] == file[..k]
            && Msgs(more[|more|..]) == [] && SentOf(more[|more|..]) == []
  {
    var more := file + [c];
    assert more[k..] == file[k..] + [c] && more[|more|..] == [];
    MsgsOne(file[k..], c);
  }

  lemma StepKeeps(s: System, step: Step)
    requires Inv(s)
    ensures Steps(s, step)
  {
    match step
    case GiveMessage(m, other, how) => GiveSteps(s, m, other, how);
    case GiveCommand(op) =>
      if s.d.running && !op.Send? { CommandSteps(s, op); }
      Unmoved(s, step);
    case HostPolls(more) => PollSteps(s, more);
    case HostCloses => CloseSteps(s);
    case ReadClosed => ReadClosedSteps(s);
    case ReadState(live) => Unmoved(s, step);
    case TornDown(how) => TornSteps(s, how);
    case End => EndSteps(s);
    case Dispose => EndSteps(s);
    case Restart(alive, live) => RestartSteps(s, alive, live);
  }

  lemma Unmoved(s: System, step: Step)
    requires Inv(s) && (step.GiveCommand? || step.ReadState?)
    requires step.GiveCommand? ==> Inv(Next(s, step)) && Flow(Next(s, step)) == Flow(s)
    ensures Steps(s, step)
  {
    hide Msgs;
    hide SentOf;
    hide Delivered;
    assert Flow(s) + [] == Flow(s);
    assert Flow(Next(s, step)) == Flow(s);
    Same(Flow(s) + [], Flow(Next(s, step)));
  }

  // ------------------------------------------------------------------ theorems over all runs

  lemma {:induction false} RunKeeps(run: seq<Step>)
    ensures Inv(After(run))
  {
    if run != [] {
      RunKeeps(run[..|run| - 1]);
      StepKeeps(After(run[..|run| - 1]), run[|run| - 1]);
    }
  }

  /**
   * Whatever happens, daemon restarts included: in.jsonl's commands are numbered 1, 2, 3, ..., and what a host says it
   * consumed is exactly how many of them it has carried out, in order.
   */
  lemma ConsumedIsAPrefix(run: seq<Step>)
    ensures var s := After(run);
            s.mine ==> && Numbered(s.d.inFile) && s.hosts != [] && Last(s).k <= |s.d.inFile|
                       && Last(s).consumed == Last(s).k && Last(s).applied == Msgs(s.d.inFile[..Last(s).k])
    ensures var s := After(run); s.d.running ==> s.d.n == |s.d.inFile|
  {
    RunKeeps(run);
  }

  /** A session whose old tree is being stopped has no running host, so what waits is never discarded for one. */
  lemma StoppingNeverRuns(run: seq<Step>)
    ensures !(After(run).d.stopping && After(run).d.running)
  {
    RunKeeps(run);
  }

  /** `a` is `b` with some messages left out, in order. */
  ghost predicate InOrder(a: seq<Msg>, b: seq<Msg>)
    decreases |b|
  {
    a == [] || (b != [] &&
      ((a[|a| - 1] == b[|b| - 1] && InOrder(a[..|a| - 1], b[..|b| - 1])) || InOrder(a, b[..|b| - 1])))
  }

  lemma InOrderPlus(a: seq<Msg>, b: seq<Msg>, m: seq<Msg>)
    requires InOrder(a, b) && |m| <= 1
    ensures InOrder(a + m, b + m)
  {
    if m == [] {
      assert a + m == a && b + m == b;
    } else {
      assert (a + m)[..|a|] == a && (b + m)[..|b|] == b;
    }
  }

  lemma {:induction false} InOrderDrop(x: seq<Msg>, y: seq<Msg>, z: seq<Msg>, b: seq<Msg>)
    requires InOrder(x + y + z, b)
    ensures InOrder(x + z, b)
    decreases |b|
  {
    var a := x + y + z;
    if z != [] {
      var f := z[..|z| - 1];
      assert a[..|a| - 1] == x + y + f && (x + z)[..|x + z| - 1] == x + f;
      if a[|a| - 1] == b[|b| - 1] && InOrder(a[..|a| - 1], b[..|b| - 1]) {
        InOrderDrop(x, y, f, b[..|b| - 1]);
      } else {
        InOrderDrop(x, y, z, b[..|b| - 1]);
      }
    } else if y != [] {
      var f := y[..|y| - 1];
      assert x + z == x && a == x + y && a[..|a| - 1] == x + f + [];
      if a[|a| - 1] == b[|b| - 1] && InOrder(a[..|a| - 1], b[..|b| - 1]) {
        InOrderDrop(x, f, [], b[..|b| - 1]);
        assert x + [] == x;
      } else {
        InOrderDrop(x, y, z, b[..|b| - 1]);
      }
    } else {
      assert a == x + z;
    }
  }

  /**
   * Over every run, whatever hosts die, launches fail and daemons restart: what hosts have delivered, what is still to
   * be delivered and what waits are, in this order, messages given to send, each at most once and in the order given.
   */
  lemma {:induction false} AtMostOnceInOrder(run: seq<Step>)
    ensures InOrder(Flow(After(run)), After(run).given)
  {
    if run != [] {
      var front, step := run[..|run| - 1], run[|run| - 1];
      AtMostOnceInOrder(front);
      RunKeeps(front);
      var s := After(front);
      StepKeeps(s, step);
      FlowSteps(s, step);
    } else {
      assert Flow(START) == [];
    }
  }

  lemma FlowSteps(s: System, step: Step)
    requires Steps(s, step) && InOrder(Flow(s), s.given)
    ensures InOrder(Flow(Next(s, step)), Next(s, step).given)
  {
    hide Flow;
    hide InOrder;
    hide Inv;
    var t := Next(s, step);
    GivenIs(s, step);
    InOrderPlus(Flow(s), s.given, News(step));
    var x, y, z :| Flow(s) + News(step) == x + y + z && Flow(t) == x + z;
    InOrderDrop(x, y, z, t.given);
  }

  lemma GivenIs(s: System, step: Step)
    ensures Next(s, step).given == s.given + News(step)
  {
    assert s.given + [] == s.given;
  }

  /**
   * One daemon, launches that succeed, hosts that end by `closed`: nothing is lost. The messages given are, in order,
   * those delivered by earlier hosts, those in the current in.jsonl (the host has delivered a prefix of them) and those
   * waiting.
   */
  lemma {:induction false} NothingLost(run: seq<Step>)
    requires forall i :: 0 <= i < |run| ==> Lossless(run[i])
    ensures var s := After(run); Kept(s) && Flow(s) == s.given
    ensures var s := After(run); s.d.running ==>
              s.hosts != [] && s.given == Delivered(s.hosts[..|s.hosts| - 1]) + Msgs(s.d.inFile) + s.d.waiting
  {
    if run != [] {
      var front, step := run[..|run| - 1], run[|run| - 1];
      NothingLost(front);
      RunKeeps(front);
      StepKeeps(After(front), step);
      GivenIs(After(front), step);
    }
    RunKeeps(run);
    var s := After(run);
    if s.d.running {
      CurrentFile(s);
    }
  }

  /**
   * While a host runs for the daemon that started it, the flow is earlier hosts' deliveries, the file and the queue.
   */
  lemma CurrentFile(s: System)
    requires Inv(s) && s.d.running && s.base == 0
    ensures Flow(s) == Delivered(s.hosts[..|s.hosts| - 1]) + Msgs(s.d.inFile) + s.d.waiting
  {
    hide Msgs;
    hide SentOf;
    var k, file := Last(s).k, s.d.inFile;
    SplitMsgs(file, k, |file|);
    assert file[..|file|] == file && file[k..|file|] == file[k..];
  }

  /**
   * A daemon restart keeps the whole flow exactly when nothing waits in the old daemon's memory, and either the host
   * that reads in.jsonl lives on or no message of the file is left to deliver: the successor knows no queue and no
   * earlier sends, and a host that is gone reads no more.
   */
  lemma RestartKeepsIff(s: System, alive: bool, live: bool)
    requires Inv(s)
    ensures Flow(Next(s, Restart(alive, live))) == Flow(s) <==>
            s.d.waiting == [] && ((s.mine && alive && !Last(s).closed) || InPlay(s) == [])
  {
    hide Msgs;
    hide SentOf;
    hide Delivered;
    hide CountLines;
    var t := Next(s, Restart(alive, live));
    if s.mine {
      CountNumbered(s.d.inFile);
      AttachIs(s.d.inFile, Command(|s.d.inFile| + 1, Attach), Last(s).k);
      ClosedIs(s);
    }
    assert Delivered(t.hosts) == Delivered(s.hosts) && t.d.waiting == [];
    assert |Flow(t)| == |Delivered(s.hosts)| + |InPlay(t)|;
    assert |Flow(s)| == |Delivered(s.hosts)| + |InPlay(s)| + |s.d.waiting|;
  }

  lemma AfterOne(run: seq<Step>, step: Step)
    ensures After(run + [step]) == Next(After(run), step)
  {
    assert (run + [step])[..|run|] == run;
  }

  lemma OneGiven(m: Msg)
    ensures var s := Next(START, GiveMessage(m, false, Launched));
            s == System(Daemon(true, true, false, false, 1, [Sent(1, m)], [], [Command(1, Send(m))], 1),
                        [Host(0, 0, [], false)], true, 0, [m])
  {
    hide Msgs;
    hide Delivered;
  }

  lemma OneUndelivered(m: Msg)
    ensures Msgs([Command(1, Send(m))]) == [m] &&
      Delivered([Host(0, 0, [], false)]) == Delivered([Host(0, 0, [], true)]) == []
  {
    assert [Command(1, Send(m))][..0] == [] && [Host(0, 0, [], false)][..0] == [] && [Host(0, 0, [], true)][..0] == [];
  }

  /** One way it loses: a message in in.jsonl that a host now gone had not read. */
  lemma RestartLosesUnread(m: Msg, live: bool)
    ensures var s := After([GiveMessage(m, false, Launched)]);
            s.d.waiting == [] && Flow(s) == [m] && Flow(Next(s, Restart(false, live))) == []
  {
    var step := GiveMessage(m, false, Launched);
    AfterOne([], step);
    assert [] + [step] == [step] && After([]) == START;
    OneGiven(m);
    OneUndelivered(m);
    hide Msgs;
    hide Delivered;
    hide After;
    hide Given;
    hide CountLines;
    var s := Next(START, step);
    hide Next;
    assert s.d.inFile[0..] == s.d.inFile && Flow(s) == [m];
    RestartsDead(s, live);
  }

  /** A dead host's restart closes it for good, with an empty queue. */
  lemma RestartsDead(s: System, live: bool)
    requires s.mine && s.hosts != []
    ensures var t := Next(s, Restart(false, live));
            t.mine && !t.d.running && t.d.waiting == [] &&
              t.hosts == s.hosts[..|s.hosts| - 1] + [Last(s).(closed := true)]
    ensures Flow(Next(s, Restart(false, live))) == Delivered(s.hosts[..|s.hosts| - 1] + [Last(s).(closed := true)])
  {
    hide Msgs;
    hide Delivered;
    hide CountLines;
  }

  /** The other: a message in the old daemon's queue. */
  lemma RestartLosesWaiting(m: Msg, alive: bool, live: bool)
    ensures var s := After([End, GiveMessage(m, false, Launched)]);
            s.d.waiting == [m] && Flow(s) == [m] && Flow(Next(s, Restart(alive, live))) == []
  {
    var step := GiveMessage(m, false, Launched);
    AfterOne([], End);
    AfterOne([End], step);
    assert [] + [End] == [End] && [End] + [step] == [End, step] && After([]) == START;
    hide After;
  }
}
