/**
 * The reader of a growing file of lines (machine/agentHost.ts, LineTail). It gives out a line once its line feed is
 * there, and its position says where a later reader, of this daemon or the next, has to begin.
 */
module Tailing {
  import opened Prelude

  type Byte = b: int | 0 <= b < 256
  const LF: Byte := 10
  const CR: Byte := 13
  const READ_MAX := 8 * 1024 * 1024

  // ------------------------------------------------------------------ what a file's bytes say, byte by byte

  /** The complete lines so far, raw and without their line feed, and the bytes of the line still being written. */
  datatype Split = Split(raws: seq<seq<Byte>>, partial: seq<Byte>)

  function Feed(x: Split, b: Byte): Split {
    if b == LF then Split(x.raws + [x.partial], []) else Split(x.raws, x.partial + [b])
  }

  function Scan(s: seq<Byte>): Split {
    if s == [] then Split([], []) else Feed(Scan(s[..|s| - 1]), s[|s| - 1])
  }

  /** What `trim` removes, in ASCII. */
  predicate White(b: Byte) { b == 32 || 9 <= b <= 13 }

  function StripCr(raw: seq<Byte>): seq<Byte> {
    if raw != [] && raw[|raw| - 1] == CR then raw[..|raw| - 1] else raw
  }

  predicate Blank(line: seq<Byte>) { forall i :: 0 <= i < |line| ==> White(line[i]) }

  function Shown1(raw: seq<Byte>): seq<seq<Byte>> {
    if Blank(StripCr(raw)) then [] else [StripCr(raw)]
  }

  /** The lines handed on: a trailing carriage return stripped, blank lines left out. */
  function Shown(raws: seq<seq<Byte>>): seq<seq<Byte>> {
    if raws == [] then [] else Shown(raws[..|raws| - 1]) + Shown1(raws[|raws| - 1])
  }

  /** The non-blank complete lines of a stretch of the file. */
  function Lines(s: seq<Byte>): seq<seq<Byte>> { Shown(Scan(s).raws) }

  // ------------------------------------------------------------------ laws of the split

  ghost predicate NoLf(s: seq<Byte>) { LF !in s }

  function Unsplit(raws: seq<seq<Byte>>): seq<Byte> {
    if raws == [] then [] else Unsplit(raws[..|raws| - 1]) + raws[|raws| - 1] + [LF]
  }

  lemma {:induction false} ScanCuts(s: seq<Byte>)
    ensures NoLf(Scan(s).partial) && forall i :: 0 <= i < |Scan(s).raws| ==> NoLf(Scan(s).raws[i])
  {
    if s != [] {
      ScanCuts(s[..|s| - 1]);
    }
  }

  lemma UnsplitOne(raws: seq<seq<Byte>>, line: seq<Byte>)
    ensures Unsplit(raws + [line]) == Unsplit(raws) + (line + [LF])
  {
    assert (raws + [line])[..|raws|] == raws;
  }

  lemma FeedJoins(x: Split, b: Byte)
    ensures Unsplit(Feed(x, b).raws) + Feed(x, b).partial == Unsplit(x.raws) + x.partial + [b]
  {
    hide Unsplit;
    UnsplitOne(x.raws, x.partial);
    Regroup(Unsplit(x.raws), x.partial, [b]);
  }

  lemma {:induction false} ScanJoins(s: seq<Byte>)
    ensures Unsplit(Scan(s).raws) + Scan(s).partial == s
  {
    hide Unsplit;
    hide Feed;
    if s == [] {
      NoneUnsplit();
    } else {
      ScanJoins(s[..|s| - 1]);
      FeedJoins(Scan(s[..|s| - 1]), s[|s| - 1]);
      assert s == s[..|s| - 1] + [s[|s| - 1]];
    }
  }

  lemma NoneUnsplit()
    ensures Unsplit([]) == []
  {
  }

  /** Nothing is lost or made up: the raw lines, each with its line feed, and the partial line are the bytes. */
  lemma ScanIsSplit(s: seq<Byte>)
    ensures Unsplit(Scan(s).raws) + Scan(s).partial == s
    ensures NoLf(Scan(s).partial) && forall i :: 0 <= i < |Scan(s).raws| ==> NoLf(Scan(s).raws[i])
  {
    ScanCuts(s);
    ScanJoins(s);
  }

  lemma {:induction false} ScanNoLf(s: seq<Byte>)
    requires NoLf(s)
    ensures Scan(s) == Split([], s)
  {
    if s != [] {
      ScanNoLf(s[..|s| - 1]);
      assert s == s[..|s| - 1] + [s[|s| - 1]];
    }
  }

  /** Scanning on from a partial line is scanning the whole. */
  lemma {:induction false} ScanAppend(a: seq<Byte>, b: seq<Byte>)
    ensures var rest := Scan(Scan(a).partial + b);
            Scan(a + b) == Split(Scan(a).raws + rest.raws, rest.partial)
  {
    var p := Scan(a).partial;
    if b == [] {
      ScanIsSplit(a);
      ScanNoLf(p);
      assert a + b == a && p + b == p;
      assert Scan(a).raws + [] == Scan(a).raws;
    } else {
      var front, x := b[..|b| - 1], b[|b| - 1];
      ScanAppend(a, front);
      assert (a + b)[..|a + b| - 1] == a + front && (p + b)[..|p + b| - 1] == p + front;
      var rest := Scan(p + front);
      assert Scan(a).raws + rest.raws + [rest.partial] == Scan(a).raws + (rest.raws + [rest.partial]);
    }
  }

  lemma {:induction false} ShownAppend(a: seq<seq<Byte>>, b: seq<seq<Byte>>)
    ensures Shown(a + b) == Shown(a) + Shown(b)
  {
    if b == [] {
      assert a + b == a;
    } else {
      var front, x := b[..|b| - 1], b[|b| - 1];
      ShownAppend(a, front);
      assert (a + b)[..|a + b| - 1] == a + front && (a + b)[|a + b| - 1] == x;
      Regroup(Shown(a), Shown(front), Shown1(x));
    }
  }

  lemma Regroup<T>(a: seq<T>, b: seq<T>, c: seq<T>)
    ensures (a + b) + c == a + (b + c)
  {
  }

  /** A boundary: every line begun before it is complete. */
  ghost predicate Boundary(s: seq<Byte>, at: nat) {
    at <= |s| && Scan(s[..at]).partial == []
  }

  /** Read on from a line boundary, a file gives the lines before it and then the lines after it. */
  lemma LinesResume(a: seq<Byte>, b: seq<Byte>)
    requires Scan(a).partial == []
    ensures Lines(a + b) == Lines(a) + Lines(b)
    ensures Scan(a + b).partial == Scan(b).partial
  {
    ScanAppend(a, b);
    assert [] + b == b;
    ShownAppend(Scan(a).raws, Scan(b).raws);
  }

  /** The code's way to a line: up to the first line feed, then the rest. */
  lemma ScanLine(line: seq<Byte>, rest: seq<Byte>)
    requires NoLf(line)
    ensures Scan(line + [LF] + rest) == Split([line] + Scan(rest).raws, Scan(rest).partial)
    ensures Lines(line + [LF] + rest) == Shown1(line) + Lines(rest)
  {
    ScanEnded(line);
    ScanAppend(line + [LF], rest);
    assert [] + rest == rest;
    ShownAppend([line], Scan(rest).raws);
    assert Shown([line]) == Shown1(line) by {
      assert [line][..0] == [];
    }
  }

  /** The first line feed, or -1. */
  function IndexOfLf(s: seq<Byte>): (i: int)
    ensures -1 <= i < |s|
    ensures i < 0 ==> NoLf(s)
    ensures i >= 0 ==> s[i] == LF && NoLf(s[..i])
  {
    if s == [] then -1
    else if s[0] == LF then 0
    else
      var j := IndexOfLf(s[1..]);
      assert s == [s[0]] + s[1..];
      assert j >= 0 ==> s[..j + 1] == [s[0]] + s[1..][..j];
      if j < 0 then -1 else j + 1
  }

  // ------------------------------------------------------------------ what was written is read

  /** A line as it is written: its bytes, and whether a carriage return goes before the line feed. */
  datatype Written = Written(line: seq<Byte>, cr: bool)

  function Raw(w: Written): seq<Byte> { w.line + if w.cr then [13] else [] }

  function BytesOf(ws: seq<Written>): seq<Byte> {
    if ws == [] then [] else Raw(ws[0]) + [10] + BytesOf(ws[1..])
  }

  /** A line that neither holds a line feed nor ends with a carriage return of its own. */
  ghost predicate Plain(line: seq<Byte>) { 10 !in line && (line != [] ==> line[|line| - 1] != 13) }

  ghost predicate AllWhite(line: seq<Byte>) {
    forall i :: 0 <= i < |line| ==> line[i] in {9, 10, 11, 12, 13, 32}
  }

  /** The lines that hold more than white space. */
  ghost function Telling(ws: seq<Written>): seq<seq<Byte>> {
    if ws == [] then [] else (if AllWhite(ws[0].line) then [] else [ws[0].line]) + Telling(ws[1..])
  }

  /**
   * Lines written one after the other, with either ending, are read back as they were, without the blank ones; what is
   * written of a line that has not ended is not read yet.
   */
  lemma {:induction false} WrittenIsRead(ws: seq<Written>, unended: seq<Byte>)
    requires (forall i :: 0 <= i < |ws| ==> Plain(ws[i].line)) && NoLf(unended)
    ensures Lines(BytesOf(ws) + unended) == Telling(ws)
    ensures Scan(BytesOf(ws) + unended).partial == unended
  {
    hide *;
    if ws == [] {
      NoneWritten(unended);
    } else {
      var w, later := ws[0], ws[1..];
      assert forall i :: 0 <= i < |later| ==> later[i] == ws[i + 1];
      WrittenIsRead(later, unended);
      OneWritten(ws);
      assert BytesOf(ws) + unended == Raw(w) + [LF] + (BytesOf(later) + unended);
      RawIsRead(w);
      ScanLine(Raw(w), BytesOf(later) + unended);
    }
  }

  lemma NoneWritten(unended: seq<Byte>)
    requires NoLf(unended)
    ensures Lines(BytesOf([]) + unended) == Telling([]) && Scan(BytesOf([]) + unended).partial == unended
  {
    ScanNoLf(unended);
    assert BytesOf([]) + unended == unended;
  }

  lemma OneWritten(ws: seq<Written>)
    requires ws != []
    ensures BytesOf(ws) == Raw(ws[0]) + [LF] + BytesOf(ws[1..])
    ensures Telling(ws) == (if AllWhite(ws[0].line) then [] else [ws[0].line]) + Telling(ws[1..])
  {
  }

  lemma RawIsRead(w: Written)
    requires Plain(w.line)
    ensures NoLf(Raw(w)) && Shown1(Raw(w)) == if AllWhite(w.line) then [] else [w.line]
  {
    assert w.cr ==> Raw(w)[..|Raw(w)| - 1] == w.line;
    assert StripCr(Raw(w)) == w.line;
  }

  // ------------------------------------------------------------------ the tail, as values

  /** Where a tail is, the line begun there, and the lines given out. */
  datatype Tail = Tail(offset: nat, partial: seq<Byte>, got: seq<seq<Byte>>)

  /** A tail begun at `from` that holds exactly what the bytes read so far say. */
  ghost predicate FollowsFrom(t: Tail, file: seq<Byte>, from: nat) {
    && from <= t.offset <= |file|
    && t.partial == Scan(file[from..t.offset]).partial
    && t.got == Lines(file[from..t.offset])
  }

  /** What taking a line throws, at the line numbered so among those of one read: never, if there are not that many. */
  predicate Throws(lines: seq<seq<Byte>>, k: Option<nat>) { k.Some? && k.value < |lines| }

  /** The bytes a read of `n` puts behind the line begun. */
  function DataOf(t: Tail, file: seq<Byte>, n: nat): seq<Byte>
    requires t.offset + n <= |file|
  {
    t.partial + file[t.offset..t.offset + n]
  }

  /** After one read of `n` bytes. A line that throws ends it: the offset has moved, the rest of the read is dropped. */
  function Taken(t: Tail, file: seq<Byte>, n: nat, k: Option<nat>): Tail
    requires t.offset + n <= |file|
  {
    var data := DataOf(t, file, n);
    if Throws(Lines(data), k) then Tail(t.offset + n, t.partial, t.got + Lines(data)[..k.value + 1])
    else Tail(t.offset + n, Scan(data).partial, t.got + Lines(data))
  }

  /** What the next read gives: never more than is left or than a read asks for. */
  function Amount(t: Tail, size: nat, n: nat): nat
    requires t.offset < size
  {
    Min(n, Min(size - t.offset, READ_MAX))
  }

  /** After a poll, from its read number `turn` on. */
  function Polled(t: Tail, file: seq<Byte>, size: nat, read: nat -> nat, throws: nat -> Option<nat>, turn: nat): Tail
    requires size <= |file|
    decreases if t.offset < size then size - t.offset else 0
  {
    if t.offset >= size then t
    else
      var n := Amount(t, size, read(turn));
      if n == 0 then t
      else if Throws(Lines(DataOf(t, file, n)), throws(turn)) then Taken(t, file, n, throws(turn))
      else Polled(Taken(t, file, n, throws(turn)), file, size, read, throws, turn + 1)
  }

  /**
   * A throw that loses nothing: at the read's last complete line, what is begun behind it being what was begun before
   * it.
   */
  predicate Harmless(t: Tail, file: seq<Byte>, n: nat, k: Option<nat>)
    requires t.offset + n <= |file|
  {
    var data := DataOf(t, file, n);
    Throws(Lines(data), k) ==> k.value + 1 == |Lines(data)| && t.partial == Scan(data).partial
  }

  /** No read of the poll throws but harmlessly. */
  predicate HarmlessPoll(t: Tail, file: seq<Byte>, size: nat, read: nat -> nat, throws: nat -> Option<nat>, turn: nat)
    requires size <= |file|
    decreases if t.offset < size then size - t.offset else 0
  {
    t.offset < size ==>
      var n, k := Amount(t, size, read(turn)), throws(turn);
      && Harmless(t, file, n, k)
      && (n > 0 && !Throws(Lines(DataOf(t, file, n)), k) ==>
        HarmlessPoll(Taken(t, file, n, k), file, size, read, throws, turn + 1))
  }

  // ------------------------------------------------------------------ the tail

  class LineTail {
    var offset: nat
    var partial: seq<Byte>
    /** What onLine was given, in order. */
    var got: seq<seq<Byte>>

    constructor (offset: nat)
      ensures this.offset == offset && partial == [] && got == []
    {
      this.offset, partial, got := offset, [], [];
    }

    function At(): Tail
      reads this
    {
      Tail(offset, partial, got)
    }

    /** Having started at `from`, it holds exactly what the bytes read so far say. */
    ghost predicate Follows(file: seq<Byte>, from: nat)
      reads this
    {
      FollowsFrom(At(), file, from)
    }

    /** Where the line now being written begins. */
    function Position(): int
      reads this
    {
      offset - |partial|
    }

    /**
     * Read what was appended, `size` being the file's size when it was opened, `read(i)` how many bytes the i-th read
     * gives (0 is an end or an error) and `throws(i)` which of its lines throws, if one does, which ends the poll.
     */
    method Poll(file: seq<Byte>, size: nat, read: nat -> nat, throws: nat -> Option<nat>)
      requires size <= |file|
      modifies this
      ensures At() == Polled(old(At()), file, size, read, throws, 0)
      ensures old(offset) <= offset <= Max(old(offset), size) && old(got) <= got
      ensures (forall i :: read(i) > 0 && throws(i).None?) ==> offset == Max(old(offset), size)
      ensures forall from :: old(Follows(file, from)) && HarmlessPoll(old(At()), file, size, read, throws, 0) ==>
        Follows(file, from)
    {
      hide Taken;
      hide Lines;
      var turn := 0;
      var threw := false;
      while !threw && offset < size
        invariant (if threw then At() else Polled(At(), file, size, read, throws, turn)) ==
          Polled(old(At()), file, size, read, throws, 0)
        invariant old(offset) <= offset <= Max(old(offset), size) && old(got) <= got
        invariant (forall i :: throws(i).None?) ==> !threw
        decreases !threw, size - offset
      {
        var n := Min(read(turn), Min(size - offset, READ_MAX));
        if n <= 0 {
          break;
        }
        threw := Take(file, n, throws(turn));
        turn := turn + 1;
      }
      forall from | old(Follows(file, from)) && HarmlessPoll(old(At()), file, size, read, throws, 0)
        ensures Follows(file, from) {
        PolledFollows(old(At()), file, size, read, throws, 0, from);
      }
    }

    /** One read of `n` bytes: its complete lines are handed on, the rest is kept for the next. */
    method Take(file: seq<Byte>, n: nat, k: Option<nat>) returns (threw: bool)
      requires offset + n <= |file|
      modifies this
      ensures At() == Taken(old(At()), file, n, k) && threw == Throws(Lines(DataOf(old(At()), file, n)), k)
      ensures offset == old(offset) + n && old(got) <= got
    {
      hide Scan;
      hide Shown;
      var data := partial + file[offset..offset + n];
      offset := offset + n;
      var lines, rest;
      lines, rest, threw := HandOn(data, k);
      got := got + lines;
      if !threw {
        partial := rest;
      }
    }
  }

  /** The inner loop: complete lines off the front of `data`, one by one, up to the first that throws. */
  method HandOn(data: seq<Byte>, k: Option<nat>) returns (lines: seq<seq<Byte>>, rest: seq<Byte>, threw: bool)
    ensures threw == Throws(Lines(data), k)
    ensures threw ==> lines == Lines(data)[..k.value + 1]
    ensures !threw ==> lines == Lines(data) && rest == Scan(data).partial
  {
    hide Scan;
    hide Shown;
    lines, rest, threw := [], data, false;
    var i := IndexOfLf(rest);
    while i >= 0
      invariant i == IndexOfLf(rest)
      invariant lines + Lines(rest) == Lines(data) && Scan(rest).partial == Scan(data).partial
      invariant k.Some? ==> |lines| <= k.value
      decreases |rest|
    {
      var line, more := rest[..i], rest[i + 1..];
      assert rest == line + [LF] + more;
      ScanLine(line, more);
      Regroup(lines, Shown1(line), Lines(more));
      if !Blank(StripCr(line)) {
        lines := lines + [StripCr(line)];
        if k == Some(|lines| - 1) {
          assert lines == Lines(data)[..|lines|];
          threw := true;
          return;
        }
      }
      rest := more;
      i := IndexOfLf(rest);
    }
    NoLinesNoLf(rest);
  }

  lemma NoLinesNoLf(s: seq<Byte>)
    requires NoLf(s)
    ensures Lines(s) == [] && Scan(s).partial == s
  {
    ScanNoLf(s);
  }

  /** The bytes of a read, put behind the partial line, carry the lines it completes and the new partial line. */
  lemma TakeSplits(file: seq<Byte>, from: nat, at: nat, n: nat, partial: seq<Byte>)
    requires from <= at && at + n <= |file| && partial == Scan(file[from..at]).partial
    ensures Lines(file[from..at + n]) == Lines(file[from..at]) + Lines(partial + file[at..at + n])
    ensures Scan(file[from..at + n]).partial == Scan(partial + file[at..at + n]).partial
  {
    var before, buf := file[from..at], file[at..at + n];
    assert file[from..at + n] == before + buf;
    ScanAppend(before, buf);
    ShownAppend(Scan(before).raws, Scan(partial + buf).raws);
  }

  // ------------------------------------------------------------------ what a poll guarantees

  /** After a read the tail follows the file exactly when no line threw, or one did harmlessly. */
  lemma TakenFollowsIff(t: Tail, file: seq<Byte>, n: nat, k: Option<nat>, from: nat)
    requires FollowsFrom(t, file, from) && t.offset + n <= |file|
    ensures FollowsFrom(Taken(t, file, n, k), file, from) <==> Harmless(t, file, n, k)
    ensures Harmless(t, file, n, k) ==> Taken(t, file, n, k) == Taken(t, file, n, None)
  {
    hide Scan;
    hide Lines;
    var ls := Lines(DataOf(t, file, n));
    TakeSplits(file, from, t.offset, n, t.partial);
    if Throws(ls, k) {
      assert ls[..|ls|] == ls;
      assert |t.got + ls[..k.value + 1]| == |t.got + ls| ==> k.value + 1 == |ls|;
    }
  }

  /** And so after a poll whose reads throw only harmlessly. */
  lemma {:induction false} PolledFollows(t: Tail, file: seq<Byte>, size: nat, read: nat -> nat,
                                         throws: nat -> Option<nat>, turn: nat, from: nat)
    requires size <= |file| && FollowsFrom(t, file, from) && HarmlessPoll(t, file, size, read, throws, turn)
    ensures FollowsFrom(Polled(t, file, size, read, throws, turn), file, from)
    decreases if t.offset < size then size - t.offset else 0
  {
    hide FollowsFrom;
    hide Lines;
    if t.offset < size {
      var n := Amount(t, size, read(turn));
      TakenFollowsIff(t, file, n, throws(turn), from);
      TakenMoves(t, file, n, throws(turn));
      hide Taken;
      hide Harmless;
      if n > 0 && !Throws(Lines(DataOf(t, file, n)), throws(turn)) {
        PolledFollows(Taken(t, file, n, throws(turn)), file, size, read, throws, turn + 1, from);
      }
    }
  }

  lemma TakenMoves(t: Tail, file: seq<Byte>, n: nat, k: Option<nat>)
    requires t.offset + n <= |file|
    ensures Taken(t, file, n, k).offset == t.offset + n
  {
  }

  /** A tail that follows a file follows it across any growth. */
  lemma GrowthKept(t: Tail, file: seq<Byte>, more: seq<Byte>, from: nat)
    requires FollowsFrom(t, file, from)
    ensures FollowsFrom(t, file + more, from)
  {
    assert (file + more)[from..t.offset] == file[from..t.offset];
  }

  /**
   * Whatever stretch [from, to) has been read in whatever pieces: the position (the end less the partial line) is a
   * line boundary, and a new tail started there gives exactly the lines the old one had still to give.
   */
  lemma PositionResumes(file: seq<Byte>, from: nat, to: nat)
    requires from <= to <= |file| && Boundary(file, from)
    ensures |Scan(file[from..to]).partial| <= to - from
    ensures var at := to - |Scan(file[from..to]).partial|;
            && Boundary(file, at)
            && Lines(file[from..to]) == Lines(file[from..at])
            && Lines(file[from..]) == Lines(file[from..to]) + Lines(file[at..])
  {
    hide Scan;
    hide Shown;
    var whole := WholeLines(file[from..to]);
    Slices(file, from, to, whole, Scan(file[from..to]).partial);
    var at := from + |whole|;
    LinesResume(file[..from], whole);
    LinesResume(whole, file[at..]);
  }

  lemma Slices(file: seq<Byte>, from: nat, to: nat, whole: seq<Byte>, partial: seq<Byte>)
    requires from <= to <= |file| && file[from..to] == whole + partial
    ensures var at := from + |whole|;
            && at == to - |partial| && file[from..at] == whole
            && file[..at] == file[..from] + whole && file[from..] == whole + file[at..]
  {
    assert file[from..to][..|whole|] == whole;
  }

  /** A stretch is whole lines and its partial line; the whole lines alone give the same lines. */
  lemma WholeLines(s: seq<Byte>) returns (whole: seq<Byte>)
    ensures s == whole + Scan(s).partial
    ensures Scan(whole) == Split(Scan(s).raws, [])
  {
    ScanIsSplit(s);
    whole := Unsplit(Scan(s).raws);
    UnsplitScans(Scan(s).raws);
  }

  lemma {:induction false} UnsplitScans(raws: seq<seq<Byte>>)
    requires forall i :: 0 <= i < |raws| ==> NoLf(raws[i])
    ensures Scan(Unsplit(raws)) == Split(raws, [])
  {
    if raws != [] {
      var front, r := raws[..|raws| - 1], raws[|raws| - 1];
      assert raws == front + [r];
      UnsplitScans(front);
      UnsplitOne(front, r);
      ScanAppend(Unsplit(front), r + [LF]);
      assert [] + (r + [LF]) == r + [LF];
      ScanEnded(r);
    }
  }

  lemma ScanEnded(line: seq<Byte>)
    requires NoLf(line)
    ensures Scan(line + [LF]) == Split([line], [])
  {
    ScanNoLf(line);
    assert (line + [LF])[..|line|] == line;
  }
}
