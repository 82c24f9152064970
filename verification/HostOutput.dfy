/**
 * A host's output across daemons (machine/agentHost.ts: follow, poll, saveOffset, detach, adopt). The host appends to
 * out.jsonl; each daemon forwards its lines from the byte offset the daemon before it saved in daemon.offset.
 */
module HostOutput {
  import opened Prelude
  import opened Tailing

  type Line = seq<Byte>

  // ------------------------------------------------------------------ one daemon's reader

  class OutputReader {
    var tail: LineTail
    /** daemon.offset */
    var offsetFile: nat
    /** What this daemon last wrote there; -1 before it wrote any. */
    var savedOffset: int

    /** adopt: go on from the offset the last daemon saved. */
    constructor (offsetFile: nat)
      ensures fresh(tail) && this.offsetFile == offsetFile && savedOffset == -1
      ensures tail.offset == offsetFile && tail.partial == [] && tail.got == []
    {
      this.offsetFile, savedOffset := offsetFile, -1;
      tail := new LineTail(offsetFile);
    }

    ghost predicate Valid()
      reads this, tail
    {
      |tail.partial| <= tail.offset && (savedOffset == -1 || savedOffset == offsetFile)
    }

    /** What the daemon knows and what it has saved, as the one at work in a world. */
    function View(out: seq<Byte>, from: nat, past: seq<Daemon>): World
      reads this, tail
    {
      WithDaemon(out, offsetFile, past, from, tail.At())
    }

    /**
     * A poll forwards what has come and then saves how far whole lines go: in the world, a run of reads and then a
     * save. It comes to the file's size at the poll unless a read gives nothing or a line throws, and goes on following
     * the file unless one throws that is not harmless.
     */
    method Poll(out: seq<Byte>, size: nat, read: nat -> nat, throws: nat -> Option<nat>)
      requires Valid() && size <= |out|
      modifies this, tail
      ensures Valid() && tail == old(tail) && old(tail.got) <= tail.got
      ensures tail.At() == Polled(old(tail.At()), out, size, read, throws, 0)
      ensures (forall i :: read(i) > 0 && throws(i).None?) ==> tail.offset == Max(old(tail.offset), size)
      ensures HarmlessPoll(old(tail.At()), out, size, read, throws, 0) ==>
        forall from :: old(tail.Follows(out, from)) ==> tail.Follows(out, from)
      ensures offsetFile == tail.Position()
      ensures forall from, past ::
        View(out, from, past) ==
          From(old(View(out, from, past)), Reads(old(tail.At()), out, size, read, throws, 0) + [Save])
    {
      hide Polled;
      hide HarmlessPoll;
      hide FollowsFrom;
      ghost var was, saved, steps := tail.At(), offsetFile, Reads(tail.At(), out, size, read, throws, 0);
      PolledSane(tail.At(), out, size, read, throws, 0);
      tail.Poll(out, size, read, throws);
      SaveOffset();
      forall from, past ensures View(out, from, past) == From(WithDaemon(out, saved, past, from, was), steps + [Save]) {
        var w := WithDaemon(out, saved, past, from, was);
        PollIsReads(w, was, size, read, throws, 0);
        OneMore(w, steps, Save);
      }
    }

    method SaveOffset()
      requires Valid()
      modifies this
      ensures Valid() && tail == old(tail)
      ensures offsetFile == tail.Position()
    {
      var at := tail.Position();
      if at == savedOffset {
        return;
      }
      offsetFile := at;
      savedOffset := at;
    }
  }

  /** The line begun is never longer than what has been read. */
  lemma {:induction false} PolledSane(t: Tail, out: seq<Byte>, size: nat, read: nat -> nat, throws: nat -> Option<nat>,
                                      turn: nat)
    requires size <= |out| && |t.partial| <= t.offset
    ensures var p := Polled(t, out, size, read, throws, turn); |p.partial| <= p.offset
    decreases if t.offset < size then size - t.offset else 0
  {
    hide Scan;
    hide Lines;
    if t.offset < size {
      var n := Amount(t, size, read(turn));
      ScanIsSplit(DataOf(t, out, n));
      var next := Taken(t, out, n, throws(turn));
      assert |next.partial| <= next.offset == t.offset + n;
      hide Taken;
      if n > 0 && !Throws(Lines(DataOf(t, out, n)), throws(turn)) {
        PolledSane(next, out, size, read, throws, turn + 1);
      }
    }
  }

  // ------------------------------------------------------------------ many daemons, one host

  /** One daemon: where in the file it began, and the lines it forwarded, in order. */
  datatype Daemon = Daemon(from: nat, lines: seq<Line>)

  datatype World = World(out: seq<Byte>, saved: nat, offset: nat, partial: seq<Byte>, past: seq<Daemon>, now: Daemon)

  datatype Step =
    | Append(bytes: seq<Byte>)          // the host writes
    | Read(n: nat, k: Option<nat>)      // one read of the tail, its complete lines forwarded, unless the k-th throws
    | Save                              // the poll's saveOffset
    | Detach                            // the daemon goes and the next adopts
    | Crash(n: nat, sent: nat)          // it dies in a read with `sent` of its lines forwarded, and the next adopts

  /** A world in which the daemon at work began at `from` and its tail is `t`. */
  function WithDaemon(out: seq<Byte>, saved: nat, past: seq<Daemon>, from: nat, t: Tail): World {
    World(out, saved, t.offset, t.partial, past, Daemon(from, t.got))
  }

  const START := World([], 0, 0, [], [], Daemon(0, []))

  function Position(w: World): int { w.offset - |w.partial| }

  /** The bytes a read puts behind the partial line. */
  function Data(w: World, n: nat): seq<Byte> {
    if w.offset > |w.out| then w.partial else w.partial + w.out[w.offset..Min(w.offset + n, |w.out|)]
  }

  function Adopted(w: World, last: Daemon): World {
    w.(past := w.past + [last], now := Daemon(w.saved, []), offset := w.saved, partial := [])
  }

  function Next(w: World, s: Step): World {
    match s
    case Append(bytes) => w.(out := w.out + bytes)
    case Read(n, k) =>
      var lines, to := Lines(Data(w, n)), Max(w.offset, Min(w.offset + n, |w.out|));
      if Throws(lines, k) then w.(offset := to, now := w.now.(lines := w.now.lines + lines[..k.value + 1]))
      else w.(offset := to, partial := Scan(Data(w, n)).partial, now := w.now.(lines := w.now.lines + lines))
    case Save => if Position(w) < 0 then w else w.(saved := Position(w))
    case Detach => if Position(w) < 0 then w else Adopted(w.(saved := Position(w)), w.now)
    case Crash(n, k) =>
      var lines := Lines(Data(w, n));
      Adopted(w, w.now.(lines := w.now.lines + lines[..Min(k, |lines|)]))
  }

  function After(run: seq<Step>): World {
    if run == [] then START else Next(After(run[..|run| - 1]), run[|run| - 1])
  }

  // ------------------------------------------------------------------ a poll is a run of steps

  /** The steps taken from a world on. */
  function From(w: World, steps: seq<Step>): World {
    if steps == [] then w else Next(From(w, steps[..|steps| - 1]), steps[|steps| - 1])
  }

  /** The reads of a poll. */
  function Reads(t: Tail, out: seq<Byte>, size: nat, read: nat -> nat, throws: nat -> Option<nat>,
                 turn: nat): (steps: seq<Step>)
    requires size <= |out|
    ensures forall i :: 0 <= i < |steps| ==> steps[i].Read?
    decreases if t.offset < size then size - t.offset else 0
  {
    if t.offset >= size then []
    else
      var n, k := Amount(t, size, read(turn)), throws(turn);
      if n == 0 then []
      else if Throws(Lines(DataOf(t, out, n)), k) then [Read(n, k)]
      else [Read(n, k)] + Reads(Taken(t, out, n, k), out, size, read, throws, turn + 1)
  }

  lemma OneMore(w: World, steps: seq<Step>, s: Step)
    ensures From(w, steps + [s]) == Next(From(w, steps), s)
  {
    assert (steps + [s])[..|steps|] == steps;
  }

  lemma {:induction false} FirstThen(w: World, s: Step, steps: seq<Step>)
    ensures From(w, [s] + steps) == From(Next(w, s), steps)
    decreases |steps|
  {
    hide Next;
    if steps == [] {
      assert [s] + steps == [] + [s];
      OneMore(w, [], s);
    } else {
      var front, last := steps[..|steps| - 1], steps[|steps| - 1];
      FirstThen(w, s, front);
      assert [s] + steps == ([s] + front) + [last];
      OneMore(w, [s] + front, last);
    }
  }

  /** The world in which the daemon's tail is `t`. */
  function Tailed(w: World, t: Tail): World {
    w.(offset := t.offset, partial := t.partial, now := w.now.(lines := t.got))
  }

  lemma ReadIsTaken(w: World, t: Tail, n: nat, k: Option<nat>)
    requires w == Tailed(w, t) && t.offset + n <= |w.out|
    ensures Next(w, Read(n, k)) == Tailed(w, Taken(t, w.out, n, k))
  {
    hide Scan;
    hide Lines;
  }

  lemma {:induction false} PollIsReads(w: World, t: Tail, size: nat, read: nat -> nat, throws: nat -> Option<nat>,
                                       turn: nat)
    requires size <= |w.out| && w == Tailed(w, t)
    ensures From(w, Reads(t, w.out, size, read, throws, turn)) == Tailed(w, Polled(t, w.out, size, read, throws, turn))
    decreases if t.offset < size then size - t.offset else 0
  {
    hide Next;
    hide Taken;
    hide From;
    hide Lines;
    FromNone(w);
    if t.offset < size && Amount(t, size, read(turn)) > 0 {
      var n, k := Amount(t, size, read(turn)), throws(turn);
      TakenMoves(t, w.out, n, k);
      ReadIsTaken(w, t, n, k);
      var u, next := Next(w, Read(n, k)), Taken(t, w.out, n, k);
      if Throws(Lines(DataOf(t, w.out, n)), k) {
        FromNone(u);
        FirstThen(w, Read(n, k), []);
        assert [Read(n, k)] + [] == [Read(n, k)];
      } else {
        PollIsReads(u, next, size, read, throws, turn + 1);
        FirstThen(w, Read(n, k), Reads(next, w.out, size, read, throws, turn + 1));
      }
    }
  }

  lemma FromNone(w: World)
    ensures From(w, []) == w
  {
  }

  // ------------------------------------------------------------------ the invariant

  /** The daemon at work forwarded exactly the lines of what it read, and what it saved is a boundary it has passed. */
  ghost predicate Current(w: World) {
    && w.now.from <= w.offset <= |w.out| && Boundary(w.out, w.now.from)
    && w.partial == Scan(w.out[w.now.from..w.offset]).partial
    && w.now.lines == Lines(w.out[w.now.from..w.offset])
    && Boundary(w.out, w.saved) && w.now.from <= w.saved <= Position(w)
  }

  /**
   * Earlier daemons: each forwarded all lines up to where the next one began, and nothing but the file's lines from its
   * start.
   */
  ghost predicate Chained(out: seq<Byte>, past: seq<Daemon>, next: nat)
    decreases |past|
  {
    if past == [] then next == 0
    else
      var d := past[|past| - 1];
      && d.from <= next <= |out| && Boundary(out, d.from) && Boundary(out, next)
      && Lines(out[d.from..next]) <= d.lines <= Lines(out[d.from..])
      && Chained(out, past[..|past| - 1], d.from)
  }

  ghost predicate Inv(w: World) {
    Current(w) && Chained(w.out, w.past, w.now.from)
  }

  lemma BoundaryGrows(out: seq<Byte>, more: seq<Byte>, at: nat)
    requires Boundary(out, at)
    ensures Boundary(out + more, at)
  {
    assert (out + more)[..at] == out[..at];
  }

  /** Lines once complete stay the first lines of a file that only grows. */
  lemma LinesGrow(s: seq<Byte>, more: seq<Byte>)
    ensures Lines(s) <= Lines(s + more)
  {
    hide Shown;
    ScanAppend(s, more);
    ShownAppend(Scan(s).raws, Scan(Scan(s).partial + more).raws);
  }

  lemma {:induction false} ChainedGrows(out: seq<Byte>, more: seq<Byte>, past: seq<Daemon>, next: nat)
    requires Chained(out, past, next)
    ensures Chained(out + more, past, next)
    decreases |past|
  {
    hide Scan;
    hide Lines;
    if past != [] {
      var d := past[|past| - 1];
      ChainedGrows(out, more, past[..|past| - 1], d.from);
      BoundaryGrows(out, more, d.from);
      BoundaryGrows(out, more, next);
      assert (out + more)[d.from..next] == out[d.from..next];
      assert (out + more)[d.from..] == out[d.from..] + more;
      LinesGrow(out[d.from..], more);
    }
  }

  lemma AppendKeeps(w: World, bytes: seq<Byte>)
    requires Inv(w)
    ensures Inv(Next(w, Append(bytes)))
  {
    hide Scan;
    hide Lines;
    ChainedGrows(w.out, bytes, w.past, w.now.from);
    BoundaryGrows(w.out, bytes, w.now.from);
    BoundaryGrows(w.out, bytes, w.saved);
    assert (w.out + bytes)[w.now.from..w.offset] == w.out[w.now.from..w.offset];
  }

  /** A throw of a read that loses nothing. */
  predicate HarmlessRead(w: World, n: nat, k: Option<nat>) {
    var lines := Lines(Data(w, n));
    Throws(lines, k) ==> k.value + 1 == |lines| && w.partial == Scan(Data(w, n)).partial
  }

  /**
   * A read keeps all of this exactly when no line of it throws, or one does harmlessly: after any other throw the
   * daemon has skipped lines, or takes the line begun before the read for the beginning of what follows it.
   */
  lemma ReadKeepsIff(w: World, n: nat, k: Option<nat>)
    requires Inv(w)
    ensures Inv(Next(w, Read(n, k))) <==> HarmlessRead(w, n, k)
  {
    hide Scan;
    hide Lines;
    hide Chained;
    var m := Min(n, |w.out| - w.offset);
    var ls := Lines(Data(w, n));
    TakeSplits(w.out, w.now.from, w.offset, m, w.partial);
    PositionAdvances(w.out[w.now.from..w.offset], w.out[w.offset..w.offset + m]);
    assert w.out[w.now.from..w.offset + m] == w.out[w.now.from..w.offset] + w.out[w.offset..w.offset + m];
    if Throws(ls, k) {
      assert ls[..|ls|] == ls;
      assert |w.now.lines + ls[..k.value + 1]| == |w.now.lines + ls| ==> k.value + 1 == |ls|;
    }
  }

  lemma {:induction false} PositionAdvances(a: seq<Byte>, b: seq<Byte>)
    ensures |a| - |Scan(a).partial| <= |a + b| - |Scan(a + b).partial|
  {
    hide Scan;
    ScanAppend(a, b);
    ScanIsSplit(Scan(a).partial + b);
  }

  /** The position of a daemon at work is a boundary, and it has forwarded exactly the lines up to it. */
  lemma PositionIs(w: World)
    requires Current(w)
    ensures w.now.from <= Position(w) <= |w.out| && Boundary(w.out, Position(w))
    ensures w.now.lines == Lines(w.out[w.now.from..Position(w)])
    ensures Lines(w.out[w.now.from..]) == w.now.lines + Lines(w.out[Position(w)..])
  {
    hide Scan;
    hide Lines;
    PositionResumes(w.out, w.now.from, w.offset);
  }

  lemma Saved(w: World)
    requires Inv(w)
    ensures Position(w) >= 0 && Inv(w.(saved := Position(w)))
  {
    hide Scan;
    hide Lines;
    PositionIs(w);
  }

  /**
   * Whatever part of a read was forwarded: at least the lines up to the saved offset, and only the file's next lines.
   */
  lemma AdoptKeeps(w: World, lines: seq<Line>)
    requires Inv(w) && w.now.lines <= lines <= Lines(w.out[w.now.from..])
    ensures Inv(Adopted(w, Daemon(w.now.from, lines)))
  {
    hide Scan;
    hide Lines;
    PositionIs(w);
    var a := Adopted(w, Daemon(w.now.from, lines));
    assert a.past[..|a.past| - 1] == w.past;
    assert Lines(w.out[w.now.from..w.saved]) <= lines by {
      var at := Position(w);
      LinesUpTo(w.out, w.now.from, w.saved, at);
    }
    assert w.out[w.saved..w.saved] == [];
    NoLinesNoLf([]);
  }

  lemma LinesUpTo(out: seq<Byte>, from: nat, mid: nat, to: nat)
    requires from <= mid <= to <= |out|
    ensures Lines(out[from..mid]) <= Lines(out[from..to])
  {
    hide Scan;
    hide Lines;
    assert out[from..to] == out[from..mid] + out[mid..to];
    LinesGrow(out[from..mid], out[mid..to]);
  }

  /** The lines of a read in progress are the file's next lines after those forwarded. */
  lemma ReadIsNext(w: World, n: nat)
    requires Inv(w)
    ensures w.now.lines + Lines(Data(w, n)) <= Lines(w.out[w.now.from..])
  {
    hide Scan;
    hide Lines;
    var m := Min(n, |w.out| - w.offset);
    TakeSplits(w.out, w.now.from, w.offset, m, w.partial);
    LinesUpTo(w.out, w.now.from, w.offset + m, |w.out|);
    assert w.out[w.now.from..|w.out|] == w.out[w.now.from..];
  }

  lemma PrefixOf<T>(a: seq<T>, b: seq<T>, k: nat, all: seq<T>)
    requires k <= |b| && a + b <= all
    ensures a <= a + b[..k] <= all
  {
  }

  lemma StepKeeps(w: World, s: Step)
    requires Inv(w) && (s.Read? ==> HarmlessRead(w, s.n, s.k))
    ensures Inv(Next(w, s))
  {
    hide Scan;
    hide Lines;
    hide Chained;
    match s
    case Append(bytes) => AppendKeeps(w, bytes);
    case Read(n, k) => ReadKeepsIff(w, n, k);
    case Save => Saved(w);
    case Detach =>
      Saved(w);
      var x := w.(saved := Position(w));
      PositionIs(w);
      AdoptKeeps(x, x.now.lines);
    case Crash(n, k) =>
      ReadIsNext(w, n);
      var lines := Lines(Data(w, n));
      PrefixOf(w.now.lines, lines, Min(k, |lines|), Lines(w.out[w.now.from..]));
      AdoptKeeps(w, w.now.lines + lines[..Min(k, |lines|)]);
  }

  /** No read of the run throws but harmlessly. */
  ghost predicate HarmlessRun(run: seq<Step>) {
    forall i :: 0 <= i < |run| && run[i].Read? ==> HarmlessRead(After(run[..i]), run[i].n, run[i].k)
  }

  lemma {:induction false} RunKeeps(run: seq<Step>)
    requires HarmlessRun(run)
    ensures Inv(After(run))
  {
    hide HarmlessRead;
    hide Next;
    if run != [] {
      HarmlessFront(run);
      RunKeeps(run[..|run| - 1]);
      StepKeeps(After(run[..|run| - 1]), run[|run| - 1]);
    } else {
      StartKeeps();
    }
  }

  lemma StartKeeps()
    ensures Inv(START)
  {
  }

  lemma HarmlessFront(run: seq<Step>)
    requires run != [] && HarmlessRun(run)
    ensures HarmlessRun(run[..|run| - 1])
  {
    hide HarmlessRead;
    hide After;
    var front := run[..|run| - 1];
    assert forall i :: 0 <= i <= |front| ==> front[..i] == run[..i];
  }

  // ------------------------------------------------------------------ what the portal gets

  /** Everything forwarded, by all daemons, in order. */
  function Forwarded(past: seq<Daemon>): seq<Line>
    decreases |past|
  {
    if past == [] then [] else Forwarded(past[..|past| - 1]) + past[|past| - 1].lines
  }

  /** How many of a daemon's lines lie before `next`, where its successor began; those after them are sent again. */
  function Cut(out: seq<Byte>, d: Daemon, next: nat): nat {
    if d.from <= next <= |out| then Min(|Lines(out[d.from..next])|, |d.lines|) else 0
  }

  /** What is left of everything forwarded when each daemon's repeated lines are left out. */
  function FirstSends(out: seq<Byte>, past: seq<Daemon>, next: nat): seq<Line>
    decreases |past|
  {
    if past == [] then []
    else
      var d := past[|past| - 1];
      FirstSends(out, past[..|past| - 1], d.from) + d.lines[..Cut(out, d, next)]
  }

  /**
   * Every repeated line is the successor's to send: a suffix of one daemon's lines, the first lines from where the next
   * began.
   */
  ghost predicate RepeatsAreSuffixes(out: seq<Byte>, past: seq<Daemon>, next: nat)
    decreases |past|
  {
    past != [] ==>
      var d := past[|past| - 1];
      && next <= |out| && d.lines[Cut(out, d, next)..] <= Lines(out[next..])
      && RepeatsAreSuffixes(out, past[..|past| - 1], d.from)
  }

  lemma LinesSplit(out: seq<Byte>, from: nat, mid: nat, to: nat)
    requires from <= mid <= to <= |out| && Boundary(out, from) && Boundary(out, mid)
    ensures Lines(out[from..to]) == Lines(out[from..mid]) + Lines(out[mid..to])
  {
    hide Scan;
    hide Shown;
    assert out[..mid] == out[..from] + out[from..mid];
    LinesResume(out[..from], out[from..mid]);
    assert out[from..to] == out[from..mid] + out[mid..to];
    LinesResume(out[from..mid], out[mid..to]);
  }

  lemma {:induction false} FirstSendsAre(out: seq<Byte>, past: seq<Daemon>, next: nat)
    requires Chained(out, past, next)
    ensures next <= |out| && FirstSends(out, past, next) == Lines(out[..next])
    ensures RepeatsAreSuffixes(out, past, next)
    decreases |past|
  {
    hide Scan;
    hide Lines;
    if past == [] {
      NoLinesNoLf([]);
    } else {
      var d := past[|past| - 1];
      FirstSendsAre(out, past[..|past| - 1], d.from);
      assert out[0..next] == out[..next] && out[0..d.from] == out[..d.from] && out[d.from..|out|] == out[d.from..]
        && out[next..|out|] == out[next..];
      assert Boundary(out, 0) by { ScanEmpty(out); }
      LinesSplit(out, 0, d.from, next);
      LinesSplit(out, d.from, next, |out|);
    }
  }

  lemma ScanEmpty(out: seq<Byte>)
    ensures Scan(out[..0]).partial == []
  {
  }

  /**
   * Over any run whose reads throw only harmlessly, crashes included: leaving out what was sent again, the daemons
   * forwarded exactly the complete lines of what the last one has read, in order, none skipped; and what was sent again
   * is only ever a suffix of what one daemon forwarded, sent again by the next from its start.
   */
  lemma NoLineSkipped(run: seq<Step>)
    requires HarmlessRun(run)
    ensures var w := After(run);
            && w.offset <= |w.out|
            && FirstSends(w.out, w.past, w.now.from) + w.now.lines == Lines(w.out[..w.offset])
            && RepeatsAreSuffixes(w.out, w.past, w.now.from)
  {
    hide Scan;
    hide Lines;
    hide Chained;
    RunKeeps(run);
    var w := After(run);
    FirstSendsAre(w.out, w.past, w.now.from);
    assert w.out[0..w.offset] == w.out[..w.offset] && w.out[0..w.now.from] == w.out[..w.now.from];
    assert Boundary(w.out, 0) by { ScanEmpty(w.out); }
    LinesSplit(w.out, 0, w.now.from, w.offset);
  }

  /** Each daemon forwarded exactly up to where the next one began. */
  ghost predicate HandedOver(out: seq<Byte>, past: seq<Daemon>, next: nat)
    decreases |past|
  {
    past != [] ==>
      var d := past[|past| - 1];
      && d.from <= next <= |out| && d.lines == Lines(out[d.from..next])
      && HandedOver(out, past[..|past| - 1], d.from)
  }

  lemma {:induction false} HandedOverGrows(out: seq<Byte>, more: seq<Byte>, past: seq<Daemon>, next: nat)
    requires HandedOver(out, past, next)
    ensures HandedOver(out + more, past, next)
    decreases |past|
  {
    hide Lines;
    if past != [] {
      var d := past[|past| - 1];
      assert (out + more)[d.from..next] == out[d.from..next];
      HandedOverGrows(out, more, past[..|past| - 1], d.from);
    }
  }

  lemma {:induction false} DetachesHandOver(run: seq<Step>)
    requires HarmlessRun(run) && forall i :: 0 <= i < |run| ==> !run[i].Crash?
    ensures var w := After(run); HandedOver(w.out, w.past, w.now.from)
  {
    hide Scan;
    hide Lines;
    if run != [] {
      var front, s := run[..|run| - 1], run[|run| - 1];
      HarmlessFront(run);
      DetachesHandOver(front);
      RunKeeps(front);
      var w := After(front);
      match s
      case Append(bytes) => HandedOverGrows(w.out, bytes, w.past, w.now.from);
      case Detach =>
        PositionIs(w);
        var a := Next(w, s);
        assert a.past[..|a.past| - 1] == w.past;
      case _ =>
    }
  }

  lemma {:induction false} NothingToCut(out: seq<Byte>, past: seq<Daemon>, next: nat)
    requires HandedOver(out, past, next)
    ensures FirstSends(out, past, next) == Forwarded(past)
    decreases |past|
  {
    hide Lines;
    if past != [] {
      var d := past[|past| - 1];
      NothingToCut(out, past[..|past| - 1], d.from);
      assert d.lines[..|d.lines|] == d.lines;
    }
  }

  /**
   * Daemons that detach, and whose lines throw only harmlessly, forward out.jsonl's complete lines exactly once and in
   * order.
   */
  lemma ExactlyOnce(run: seq<Step>)
    requires HarmlessRun(run) && forall i :: 0 <= i < |run| ==> !run[i].Crash?
    ensures var w := After(run);
            && w.offset <= |w.out|
            && Forwarded(w.past) + w.now.lines == Lines(w.out[..w.offset])
  {
    hide Scan;
    hide Lines;
    NoLineSkipped(run);
    DetachesHandOver(run);
    var w := After(run);
    NothingToCut(w.out, w.past, w.now.from);
  }

  // ------------------------------------------------------------------ what a throw does

  /** A line the portal should get: one line, not blank. */
  ghost predicate IsLine(line: seq<Byte>) { NoLf(line) && StripCr(line) == line && !Blank(line) }

  lemma OneLine(line: seq<Byte>, rest: seq<Byte>)
    requires IsLine(line)
    ensures Lines(line + [LF] + rest) == [line] + Lines(rest) && Scan(line + [LF] + rest).partial == Scan(rest).partial
  {
    ScanLine(line, rest);
  }

  lemma TwoLines(a: Line, b: Line)
    requires IsLine(a) && IsLine(b)
    ensures Lines(a + [LF] + (b + [LF])) == [a, b]
  {
    hide Lines;
    hide Scan;
    assert b + [LF] == b + [LF] + [];
    OneLine(a, b + [LF]);
    OneLine(b, []);
    NoLinesNoLf([]);
    assert [a] + ([b] + []) == [a, b];
  }

  /** The first of two lines read at once throws: the other is behind the saved offset, and was not forwarded. */
  lemma ThrowSkips(a: Line, b: Line)
    requires IsLine(a) && IsLine(b)
    ensures var out := a + [LF] + (b + [LF]);
            var w := After([Append(out), Read(|out|, Some(0)), Save]);
            w.out == out && w.saved == w.offset == |out| && w.now.lines == [a] && Lines(out) == [a, b]
  {
    hide Lines;
    hide Scan;
    hide After;
    hide IsLine;
    var out := a + [LF] + (b + [LF]);
    var s1, s2, s3 := Append(out), Read(|out|, Some(0)), Save;
    TwoLines(a, b);
    NoRun();
    RunGrows([], s1);
    RunGrows([s1], s2);
    RunGrows([s1, s2], s3);
    assert [] + [s1] == [s1] && [s1] + [s2] == [s1, s2] && [s1, s2] + [s3] == [s1, s2, s3];
    var w1 := After([s1]);
    assert w1 == START.(out := out) && Data(w1, |out|) == out;
    assert [a, b][..1] == [a];
  }

  lemma NoRun()
    ensures After([]) == START
  {
  }

  /** Having read `a`, the beginning of a line, the daemon reads its end, and throws at the line. */
  lemma ThrowKeepsBegun(a: seq<Byte>, b: seq<Byte>)
    requires NoLf(a) && IsLine(a + b)
    ensures var w := Next(Next(World(a, 0, |a|, a, [], Daemon(0, [])), Append(b + [LF])), Read(|b| + 1, Some(0)));
            w == World(a + (b + [LF]), 0, |a + (b + [LF])|, a, [], Daemon(0, [a + b]))
  {
    hide Lines;
    hide Scan;
    hide Next;
    hide IsLine;
    var w := World(a, 0, |a|, a, [], Daemon(0, []));
    ReadEnd(w, b, Some(0));
    OneLine(a + b, []);
    NoLinesNoLf([]);
    assert a + b + [LF] + [] == a + (b + [LF]) && [a + b] + [] == [a + b] && [a + b][..1] == [a + b];
  }

  lemma ReadBegun(a: seq<Byte>)
    requires NoLf(a)
    ensures Next(Next(START, Append(a)), Read(|a|, None)) == World(a, 0, |a|, a, [], Daemon(0, []))
  {
    hide Lines;
    hide Scan;
    var w := Next(START, Append(a));
    assert Data(w, |a|) == a;
    NoLinesNoLf(a);
  }

  /** A line read in two parts throws: its first part is taken for the beginning of the next line. */
  lemma ThrowJoins(a: seq<Byte>, b: seq<Byte>, c: Line)
    requires NoLf(a) && IsLine(a + b) && IsLine(a + c)
    ensures var run := [Append(a), Read(|a|, None), Append(b + [LF]), Read(|b| + 1, Some(0)), Append(c + [LF]),
      Read(|c| + 1, None)];
            After(run).out == a + (b + [LF]) + (c + [LF]) && After(run).now.lines == [a + b, a + c]
  {
    hide *;
    var s1, s2, s3 := Append(a), Read(|a|, None), Append(b + [LF]);
    var s4, s5, s6 := Read(|b| + 1, Some(0)), Append(c + [LF]), Read(|c| + 1, None);
    NoRun();
    RunGrows([], s1);
    RunGrows([s1], s2);
    RunGrows([s1, s2], s3);
    RunGrows([s1, s2, s3], s4);
    RunGrows([s1, s2, s3, s4], s5);
    RunGrows([s1, s2, s3, s4, s5], s6);
    assert [] + [s1] == [s1] && [s1] + [s2] == [s1, s2] && [s1, s2] + [s3] == [s1, s2, s3];
    assert [s1, s2, s3] + [s4] == [s1, s2, s3, s4] && [s1, s2, s3, s4] + [s5] == [s1, s2, s3, s4, s5];
    assert [s1, s2, s3, s4, s5] + [s6] == [s1, s2, s3, s4, s5, s6];
    ReadBegun(a);
    ThrowKeepsBegun(a, b);
    var w := After([s1, s2, s3, s4]);
    ReadEnd(w, c, None);
    NeverThrows(Lines(a + (c + [LF])));
    OneLine(a + c, []);
    NoLinesNoLf([]);
    assert a + c + [LF] + [] == a + (c + [LF]) && [a + c] + [] == [a + c] && [a + b] + [a + c] == [a + b, a + c];
  }

  lemma NeverThrows(lines: seq<Line>)
    ensures !Throws(lines, None)
  {
  }

  lemma RunGrows(run: seq<Step>, s: Step)
    ensures After(run + [s]) == Next(After(run), s)
  {
    assert (run + [s])[..|run|] == run;
  }

  /** A line's end comes and is read, by a daemon that had read all there was. */
  lemma ReadEnd(w: World, b: seq<Byte>, k: Option<nat>)
    requires w.offset == |w.out|
    ensures var u := Next(Next(w, Append(b + [LF])), Read(|b| + 1, k));
            var lines := Lines(w.partial + (b + [LF]));
            && u.out == w.out + (b + [LF]) && u.offset == |u.out| && u.saved == w.saved && u.past == w.past &&
              u.now.from == w.now.from
            && u.partial == (if Throws(lines, k) then w.partial else Scan(w.partial + (b + [LF])).partial)
            && u.now.lines == w.now.lines + if Throws(lines, k) then lines[..k.value + 1] else lines
  {
    hide Lines;
    hide Scan;
    var v := Next(w, Append(b + [LF]));
    assert v.out[v.offset..|v.out|] == b + [LF];
    assert Data(v, |b| + 1) == w.partial + (b + [LF]);
  }
}
