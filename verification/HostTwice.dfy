/**
 * An old host that was not stopped (machine/agentHost.ts, teardown and adopt): a new one is started over the same
 * in.jsonl, and the old one's tail reads on in the new file from the offset it had in its own. What both are then
 * given.
 */
module HostTwice {
  import opened Prelude
  import opened Tailing

  /** Where the first whole line at or after `at` begins, if one has its line feed before it or `at` is a boundary. */
  function WholeFrom(file: seq<Byte>, at: nat): Option<nat>
    requires at <= |file|
  {
    if at == 0 || file[at - 1] == LF then Some(at)
    else
      var i := IndexOfLf(file[at..]);
      if i < 0 then None else Some(at + i + 1)
  }

  /** The end of the line an offset lies in, as the old host reads it. */
  function Scrap(file: seq<Byte>, at: nat): seq<seq<Byte>>
    requires at <= |file|
  {
    var from := WholeFrom(file, at);
    if from.None? || from.value == at then [] else Shown1(file[at..from.value - 1])
  }

  /** The lines both hosts are given, once the new one has read its whole file. */
  function GivenTwice(file: seq<Byte>, at: nat): seq<seq<Byte>>
    requires at <= |file|
  {
    var from := WholeFrom(file, at);
    if from.None? || from.value > |file| then [] else Lines(file[from.value..])
  }

  lemma {:induction false} EndsScanned(s: seq<Byte>)
    requires s == [] || s[|s| - 1] == LF
    ensures Scan(s).partial == []
  {
  }

  lemma LineBegins(file: seq<Byte>, i: nat)
    requires i <= |file|
    ensures var n := IndexOfLf(file[i..]);
            Lines(file[i..]) == if n < 0 then [] else Shown1(file[i..i + n]) + Lines(file[i + n + 1..])
  {
    hide Scan;
    hide Shown;
    hide Shown1;
    var rest := file[i..];
    var n := IndexOfLf(rest);
    if n < 0 {
      NoLinesNoLf(rest);
    } else {
      assert rest == rest[..n] + [LF] + rest[n + 1..] && rest[..n] == file[i..i + n] &&
        rest[n + 1..] == file[i + n + 1..];
      ScanLine(rest[..n], rest[n + 1..]);
    }
  }

  lemma RestIs(file: seq<Byte>, at: nat)
    requires at <= |file|
    ensures Lines(file[at..]) == Scrap(file, at) + GivenTwice(file, at)
  {
    hide Lines;
    hide Shown1;
    LineBegins(file, at);
    var rest := Lines(file[at..]);
    assert [] + rest == rest;
  }

  lemma WholeIs(file: seq<Byte>, from: nat)
    requires from <= |file| && (from == 0 || file[from - 1] == LF)
    ensures Lines(file) == Lines(file[..from]) + Lines(file[from..])
  {
    hide *;
    EndsScanned(file[..from]);
    LinesResume(file[..from], file[from..]);
    assert file == file[..from] + file[from..];
  }

  /**
   * The old host, its tail at an offset with no line begun, is given in the new file the scrap of a line and then
   * exactly the lines the new host is given from there on; before them the new host is given the rest of its file.
   */
  lemma OldHostIsGiven(t: Tail, file: seq<Byte>)
    requires t.partial == [] && t.offset <= |file|
    ensures Taken(t, file, |file| - t.offset, None).got == t.got + (Scrap(file, t.offset) + GivenTwice(file, t.offset))
    ensures var from := WholeFrom(file, t.offset);
            from.Some? ==> from.value <= |file| && Lines(file) == Lines(file[..from.value]) + GivenTwice(file, t.offset)
  {
    hide Lines;
    hide Scan;
    hide Scrap;
    hide IndexOfLf;
    RestIs(file, t.offset);
    var from := WholeFrom(file, t.offset);
    if from.Some? {
      BeforeWhole(file, t.offset);
      WholeIs(file, from.value);
    }
    assert DataOf(t, file, |file| - t.offset) == file[t.offset..];
    hide WholeFrom;
  }

  /** A line that begins in the new file at or after the old host's offset, as soon as it is complete. */
  ghost predicate BeginsBehind(file: seq<Byte>, at: nat, i: nat) {
    && at <= i < |file| && (i == 0 || file[i - 1] == LF)
    && var n := IndexOfLf(file[i..]); n >= 0 && !Blank(StripCr(file[i..i + n]))
  }

  /** What is found at a boundary: no whole line, a blank one, or one that begins there. */
  lemma FoundAt(file: seq<Byte>, at: nat, i: nat, n: int)
    requires at <= i <= |file| && (i == 0 || file[i - 1] == LF) && n == IndexOfLf(file[i..])
    ensures n < 0 ==> Lines(file[i..]) == []
    ensures n >= 0 ==> i + n < |file| && file[i + n] == LF
    ensures n >= 0 && Blank(StripCr(file[i..i + n])) ==> Lines(file[i..]) == Lines(file[i + n + 1..])
    ensures n >= 0 && !Blank(StripCr(file[i..i + n])) ==> Lines(file[i..]) != [] && BeginsBehind(file, at, i)
  {
    hide Lines;
    hide IndexOfLf;
    hide Blank;
    hide StripCr;
    LineBegins(file, i);
    if n >= 0 {
      assert file[i..][n] == file[i + n];
      var more := Lines(file[i + n + 1..]);
      assert [] + more == more;
    }
  }

  /** From a boundary on, there are lines exactly when one begins there or behind. */
  lemma {:induction false} LinesFrom(file: seq<Byte>, at: nat, i: nat)
    requires at <= i <= |file| && (i == 0 || file[i - 1] == LF)
    requires forall j :: at <= j < i ==> !BeginsBehind(file, at, j)
    ensures Lines(file[i..]) != [] <==> exists j :: BeginsBehind(file, at, j)
    decreases |file| - i
  {
    hide *;
    var n := IndexOfLf(file[i..]);
    FoundAt(file, at, i, n);
    if n < 0 {
      NoneBehind(file, at, i);
    } else if Blank(StripCr(file[i..i + n])) {
      NoneInside(file, at, i, n);
      LinesFrom(file, at, i + n + 1);
    }
  }

  /** Between a boundary and the next line feed no other line begins. */
  lemma NoneInside(file: seq<Byte>, at: nat, i: nat, n: nat)
    requires at <= i <= |file| && n == IndexOfLf(file[i..]) && Blank(StripCr(file[i..i + n]))
    requires forall j :: at <= j < i ==> !BeginsBehind(file, at, j)
    ensures forall j :: at <= j < i + n + 1 ==> !BeginsBehind(file, at, j)
  {
    forall j | i <= j < i + n + 1 ensures !BeginsBehind(file, at, j) {
      if j > i {
        assert file[j - 1] == file[i..][..n][j - 1 - i];
      }
    }
  }

  lemma NoneBehind(file: seq<Byte>, at: nat, i: nat)
    requires at <= i <= |file| && IndexOfLf(file[i..]) < 0
    requires forall j :: at <= j < i ==> !BeginsBehind(file, at, j)
    ensures !exists j :: BeginsBehind(file, at, j)
  {
    forall j | i <= j < |file| ensures !BeginsBehind(file, at, j) {
      assert forall m :: 0 <= m < |file[j..]| ==> file[j..][m] == file[i..][j - i + m];
    }
  }

  /**
   * Exactly when no line is given to both: no complete line of the new file begins at or after the old host's offset. A
   * host still at its start, which has read nothing, is given every line again.
   */
  lemma GivenTwiceIff(file: seq<Byte>, at: nat)
    requires at <= |file|
    ensures GivenTwice(file, at) == [] <==> !exists i :: BeginsBehind(file, at, i)
    ensures at == 0 ==> GivenTwice(file, at) == Lines(file)
  {
    hide Lines;
    var from := WholeFrom(file, at);
    if from.None? {
      NoLineBegins(file, at);
    } else {
      assert file[0..] == file;
      BeforeWhole(file, at);
      LinesFrom(file, at, from.value);
    }
  }

  lemma BeforeWhole(file: seq<Byte>, at: nat)
    requires at <= |file| && WholeFrom(file, at).Some?
    ensures var f := WholeFrom(file, at).value;
            at <= f <= |file| && (f == 0 || file[f - 1] == LF) && forall j :: at <= j < f ==> !BeginsBehind(file, at, j)
  {
    hide IndexOfLf;
    hide Blank;
    var f := WholeFrom(file, at).value;
    forall j | at <= j < f ensures !BeginsBehind(file, at, j) {
      if j > at {
        assert file[j - 1] == file[at..][..f - 1 - at][j - 1 - at];
      }
    }
  }

  lemma NoLineBegins(file: seq<Byte>, at: nat)
    requires at <= |file| && WholeFrom(file, at).None?
    ensures !exists i :: BeginsBehind(file, at, i)
  {
    forall i | at <= i < |file| ensures !BeginsBehind(file, at, i) {
      assert forall m :: 0 <= m < |file[i..]| ==> file[i..][m] == file[at..][i - at + m];
    }
  }
}
