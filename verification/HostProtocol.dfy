/**
 * The message protocol between a daemon and its agent hosts (machine/agentHost.ts: HostedSession and runHost). A daemon
 * appends numbered commands to in.jsonl; a host that closes says how many it carried out; the daemon sends the rest to
 * a new host, behind a queue of messages that wait while the old host's process tree is being stopped.
 */
module HostProtocol {
  import opened Prelude

  /** A message by its identity (its uuid). */
  type Msg = nat

  datatype Op = Send(msg: Msg) | Stop | Attach | Other
  datatype Command = Command(n: nat, op: Op)
  datatype Sent = Sent(n: nat, msg: Msg)

  // ------------------------------------------------------------------ the daemon's side, as values

  /** HostedSession's fields, with in.jsonl, which it alone writes, and how many hosts it has launched. */
  datatype Daemon = Daemon(running: bool, live: bool, stopping: bool, disposed: bool,
                           n: nat, sends: seq<Sent>, waiting: seq<Msg>, inFile: seq<Command>, launches: nat)

  const FRESH := Daemon(false, false, false, false, 0, [], [], [], 0)

  function Put(d: Daemon, op: Op): Daemon {
    d.(n := d.n + 1, inFile := d.inFile + [Command(d.n + 1, op)])
  }

  function PutSend(d: Daemon, m: Msg): Daemon {
    Put(d, Send(m)).(sends := d.sends + [Sent(d.n + 1, m)])
  }

  function PutAll(d: Daemon, ms: seq<Msg>): Daemon
    decreases |ms|
  {
    if ms == [] then d else PutSend(PutAll(d, ms[..|ms| - 1]), ms[|ms| - 1])
  }

  /** How a start goes: a host is launched, its process cannot be started, or the old folder cannot be removed. */
  datatype Launch = Launched | NoHost | InUse

  /**
   * start: a new folder whose first command is the message; with the old folder still in use it throws, changing
   * nothing.
   */
  function Started(d: Daemon, first: Msg, how: Launch): Daemon {
    var e := PutSend(d.(n := 0, sends := [], inFile := []), first);
    match how
    case Launched => e.(running := true, launches := d.launches + 1)
    case NoHost => e.(running := false, live := false)
    case InUse => d
  }

  /** send; `other` is whether the message's run differs from what the host started with. */
  function Given(d: Daemon, m: Msg, other: bool, how: Launch): Daemon {
    if d.stopping || d.waiting != [] then d.(waiting := d.waiting + [m], live := true)
    else if d.running && !d.live && other then Put(d.(waiting := [m]), Stop).(live := true)
    else if !d.running then
      var e := Started(d, m, how);
      if how.Launched? then e.(live := true) else e
    else PutSend(d, m).(live := true)
  }

  /** The sends numbered past what a host consumed. */
  function Left(sends: seq<Sent>, consumed: nat): seq<Msg> {
    if sends == [] then []
    else
      var s := sends[|sends| - 1];
      Left(sends[..|sends| - 1], consumed) + if s.n > consumed then [s.msg] else []
  }

  /** The host's last line, `closed`: what it was given after it decided to close goes ahead of all that waits. */
  function Closed(d: Daemon, consumed: nat): Daemon {
    var left := Left(d.sends, consumed);
    var e := d.(running := false, sends := [], stopping := true);
    if left != [] && !d.disposed then e.(waiting := left + d.waiting) else e.(live := false)
  }

  /** ended, and endNow: the host is done for and its tree is being stopped. */
  function Ended(d: Daemon): Daemon {
    d.(running := false, live := false, stopping := true)
  }

  /** The old tree is gone, and its folder with it unless that is still in use: startWaiting. */
  function Settled(d: Daemon, how: Launch): Daemon {
    var e := d.(stopping := false, waiting := [], inFile := if how.InUse? then d.inFile else []);
    if d.waiting == [] || d.disposed || d.running then e
    else
      var s := Started(e, d.waiting[0], how);
      match how
      case Launched => PutAll(s, d.waiting[1..])
      case NoHost => s
      case InUse => s.(live := false)
  }

  /** A session without a host runs after a message, or a teardown, exactly when a host was launched for it. */
  lemma RunsIffLaunched(d: Daemon, m: Msg, other: bool, how: Launch)
    requires !d.running
    ensures !d.stopping && d.waiting == [] ==>
              var e := Given(d, m, other, how);
              (e.running <==> how.Launched?) && (how.NoHost? ==> !e.live)
    ensures d.waiting != [] && !d.disposed ==>
              var e := Settled(d, how);
              (e.running <==> how.Launched?) && (!how.Launched? ==> !e.live && e.waiting == [])
  {
    if d.waiting != [] {
      PutAllRuns(Started(d.(stopping := false, waiting := []), d.waiting[0], how), d.waiting[1..]);
    }
  }

  lemma {:induction false} PutAllRuns(d: Daemon, ms: seq<Msg>)
    ensures PutAll(d, ms).running == d.running
  {
    if ms != [] {
      PutAllRuns(d, ms[..|ms| - 1]);
    }
  }

  /** The greatest number in the file (countLines). */
  function CountLines(inFile: seq<Command>): nat {
    if inFile == [] then 0 else Max(CountLines(inFile[..|inFile| - 1]), inFile[|inFile| - 1].n)
  }

  /** A new daemon takes the host back. */
  function Adopted(d: Daemon, alive: bool, live: bool): Daemon {
    var e := Daemon(alive, live, false, false, CountLines(d.inFile), [], [], d.inFile, d.launches);
    if alive then Put(e, Attach) else Ended(e)
  }

  function Disposed(d: Daemon): Daemon {
    d.(disposed := true, waiting := [], stopping := d.stopping || !d.running)
  }

  // ------------------------------------------------------------------ the daemon's side, as code

  class HostedSession {
    var running: bool
    var live: bool
    var stopping: bool
    var disposed: bool
    var n: nat
    var sends: seq<Sent>
    var waiting: seq<Msg>
    var inFile: seq<Command>
    var launches: nat

    function View(): Daemon
      reads this
    {
      Daemon(running, live, stopping, disposed, n, sends, waiting, inFile, launches)
    }

    constructor ()
      ensures View() == FRESH
    {
      running, live, stopping, disposed, n, sends, waiting, inFile, launches := false, false, false, false, 0, [], [],
        [], 0;
    }

    /** The daemon after a restart, over the folder the one before it left. */
    constructor Adopt(was: Daemon, alive: bool, live: bool)
      ensures View() == Adopted(was, alive, live)
    {
      stopping, disposed, sends, waiting, inFile, launches := false, false, [], [], was.inFile, was.launches;
      running, this.live, n := alive, live, CountLines(was.inFile);
      new;
      if alive {
        var _ := AppendCommand(Attach);
      } else {
        End();
      }
    }

    method AppendCommand(op: Op) returns (c: Command)
      modifies this
      ensures View() == Put(old(View()), op) && c == Command(n, op)
    {
      n := n + 1;
      c := Command(n, op);
      inFile := inFile + [c];
    }

    method SendCommand(m: Msg)
      modifies this
      ensures View() == PutSend(old(View()), m)
    {
      var c := AppendCommand(Send(m));
      sends := sends + [Sent(c.n, m)];
    }

    method Start(first: Msg, how: Launch) returns (started: bool)
      modifies this
      ensures View() == Started(old(View()), first, how) && started == how.Launched?
    {
      if how == InUse {
        return false;
      }
      inFile := [];
      n := 0;
      sends := [];
      SendCommand(first);
      running := true;
      started := how == Launched;
      if started {
        launches := launches + 1;
      } else {
        running := false;
        live := false;
      }
    }

    method SendMessage(m: Msg, other: bool, how: Launch)
      modifies this
      ensures View() == Given(old(View()), m, other, how)
    {
      if stopping || waiting != [] {
        waiting := waiting + [m];
      } else if running && !live && other {
        waiting := waiting + [m];
        var _ := AppendCommand(Stop);
      } else if !running {
        var started := Start(m, how);
        if !started {
          return;
        }
      } else {
        SendCommand(m);
      }
      live := true;
    }

    method OnClosed(consumed: nat)
      modifies this
      ensures View() == Closed(old(View()), consumed)
    {
      running := false;
      var left := Left(sends, consumed);
      sends := [];
      if left != [] && !disposed {
        waiting := left + waiting;
        Teardown();
        return;
      }
      End();
    }

    method End()
      modifies this
      ensures View() == Ended(old(View()))
    {
      running := false;
      live := false;
      Teardown();
    }

    method Teardown()
      modifies this
      ensures View() == old(View()).(stopping := true)
    {
      if stopping {
        return;
      }
      stopping := true;
    }

    /** What follows a teardown. */
    method Settle(how: Launch)
      modifies this
      ensures View() == Settled(old(View()), how)
    {
      if how != InUse {
        inFile := [];
      }
      stopping := false;
      var all := waiting;
      waiting := [];
      if all == [] || disposed || running {
        return;
      }
      var up := Start(all[0], how);
      if up {
        ghost var started := View();
        var rest := all[1..];
        for i := 0 to |rest|
          invariant View() == PutAll(started, rest[..i])
        {
          assert rest[..i + 1][..i] == rest[..i];
          SendCommand(rest[i]);
        }
        assert rest[..|rest|] == rest;
      } else {
        running, live := false, false;
      }
    }

    method Dispose()
      modifies this
      ensures View() == Disposed(old(View()))
    {
      disposed := true;
      waiting := [];
      if !running && !stopping {
        Teardown();
      }
    }
  }

  // ------------------------------------------------------------------ the host's side

  /**
   * A host: how many commands it has read, the greatest number among them, what it delivered, and whether it is done.
   */
  datatype Host = Host(k: nat, consumed: nat, applied: seq<Msg>, closed: bool)

  function Apply(h: Host, c: Command): Host {
    Host(h.k + 1, Max(h.consumed, c.n), h.applied + (if c.op.Send? then [c.op.msg] else []), h.closed)
  }

  function ApplyAll(h: Host, cs: seq<Command>): Host
    decreases |cs|
  {
    if cs == [] then h else Apply(ApplyAll(h, cs[..|cs| - 1]), cs[|cs| - 1])
  }

  class HostProcess {
    var k: nat
    var consumed: nat
    var applied: seq<Msg>
    var closed: bool

    function View(): Host
      reads this
    {
      Host(k, consumed, applied, closed)
    }

    constructor ()
      ensures View() == Host(0, 0, [], false)
    {
      k, consumed, applied, closed := 0, 0, [], false;
    }

    /** A poll of in.jsonl carries out the commands that have come, in order. */
    method Poll(inFile: seq<Command>, upTo: nat)
      requires k <= upTo <= |inFile|
      modifies this
      ensures View() == ApplyAll(old(View()), inFile[old(k)..upTo])
    {
      ghost var from := k;
      while k < upTo
        invariant from <= k <= upTo
        invariant View() == ApplyAll(old(View()), inFile[from..k])
      {
        assert inFile[from..k + 1][..k - from] == inFile[from..k];
        var c := inFile[k];
        consumed := Max(consumed, c.n);
        if c.op.Send? {
          applied := applied + [c.op.msg];
        }
        k := k + 1;
      }
    }

    /** Its agent ended: the last line it writes says how many commands it carried out. */
    method Close() returns (said: nat)
      modifies `closed
      ensures View() == old(View()).(closed := true) && said == consumed
    {
      closed := true;
      said := consumed;
    }
  }
}
