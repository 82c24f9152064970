/**
 * Text as lines (`machine/matText.ts`): split at each line feed, with the carriage return before it if any; joined with
 * one ending.
 */
module TextLines {
  const LF := "\n"
  const CRLF := "\r\n"

  predicate EndsInCr(l: string) { l != "" && l[|l| - 1] == '\r' }

  function Chomp(l: string): string { if EndsInCr(l) then l[..|l| - 1] else l }

  function Split(text: string): (lines: seq<string>)
    ensures lines != []
  {
    if text == "" then [""]
    else
      var c, lines := text[|text| - 1], Split(text[..|text| - 1]);
      var last := |lines| - 1;
      if c == '\n' then lines[..last] + [Chomp(lines[last]), ""] else lines[last := lines[last] + [c]]
  }

  function Join(lines: seq<string>, eol: string): string
    requires lines != []
  {
    if |lines| == 1 then lines[0] else Join(lines[..|lines| - 1], eol) + eol + lines[|lines| - 1]
  }

  predicate HasCrlf(text: string) { exists i :: 0 < i < |text| && text[i - 1] == '\r' && text[i] == '\n' }

  function Eol(text: string): string { if HasCrlf(text) then CRLF else LF }

  predicate IsLone(text: string, i: int) { 0 <= i < |text| && text[i] == '\n' && (i == 0 || text[i - 1] != '\r') }

  /** The line feeds no carriage return precedes. */
  function Lone(text: string): nat {
    if text == "" then 0 else Lone(text[..|text| - 1]) + if IsLone(text, |text| - 1) then 1 else 0
  }

  lemma JoinLast(lines: seq<string>, eol: string, more: string)
    requires lines != []
    ensures Join(lines[|lines| - 1 := lines[|lines| - 1] + more], eol) == Join(lines, eol) + more
  {
    var longer := lines[|lines| - 1 := lines[|lines| - 1] + more];
    assert longer[..|lines| - 1] == lines[..|lines| - 1];
  }

  lemma JoinNext(lines: seq<string>, eol: string, l: string)
    requires lines != []
    ensures Join(lines + [l], eol) == Join(lines, eol) + eol + l
  {
    assert (lines + [l])[..|lines|] == lines;
  }

  /** The last line is the end of the text, from the start or from a line feed on. */
  lemma {:induction false} LastLine(text: string)
    ensures var l := Split(text)[|Split(text)| - 1];
            |l| <= |text| && text[|text| - |l|..] == l && '\n' !in l &&
              (|l| < |text| ==> text[|text| - |l| - 1] == '\n')
  {
    if text != "" {
      LastLine(text[..|text| - 1]);
    }
  }

  lemma LastLineEnds(text: string)
    ensures EndsInCr(Split(text)[|Split(text)| - 1]) <==> EndsInCr(text)
  {
    LastLine(text);
  }

  /** How one more character changes the joined text. */
  lemma JoinGrows(text: string, eol: string)
    requires text != ""
    ensures var front, c := text[..|text| - 1], text[|text| - 1];
            var was := Join(Split(front), eol);
            if c != '\n' then Join(Split(text), eol) == was + [c]
            else if EndsInCr(front) then was != "" && Join(Split(text), eol) == was[..|was| - 1] + eol
            else Join(Split(text), eol) == was + eol
  {
    var front, c := text[..|text| - 1], text[|text| - 1];
    var lines := Split(front);
    var last := |lines| - 1;
    if c == '\n' {
      LastLineEnds(front);
      var cut := lines[last := Chomp(lines[last])];
      assert Split(text) == cut + [""];
      JoinNext(cut, eol, "");
      hide Split;
      if EndsInCr(lines[last]) {
        CutCr(lines, eol);
      } else {
        assert cut == lines;
      }
    } else {
      JoinLast(lines, eol, [c]);
    }
  }

  /** Joining what was split, with one ending: the text again, but for the endings that were another. */
  lemma {:induction false} JoinOfSplit(text: string, eol: string)
    requires eol == LF || eol == CRLF
    requires eol == LF ==> !HasCrlf(text)
    ensures |Join(Split(text), eol)| == |text| + if eol == LF then 0 else Lone(text)
    ensures eol == LF || Lone(text) == 0 ==> Join(Split(text), eol) == text
  {
    if text != "" {
      hide *;
      var front, c := text[..|text| - 1], text[|text| - 1];
      LastCounts(text);
      JoinOfSplit(front, eol);
      JoinGrows(text, eol);
      assert text == front + [c];
      if c == '\n' && EndsInCr(front) {
        assert text == front[..|front| - 1] + CRLF by {
          CrlfLast(text);
        }
      }
    }
  }

  lemma CrlfLast(text: string)
    requires text != "" && text[|text| - 1] == '\n' && EndsInCr(text[..|text| - 1])
    ensures |text| >= 2 && text == text[..|text| - 2] + CRLF && text[..|text| - 1][..|text| - 2] == text[..|text| - 2]
  {
  }

  /** What the last character adds: a lone line feed, or the first pair of both. */
  lemma LastCounts(text: string)
    requires text != ""
    ensures var front, c := text[..|text| - 1], text[|text| - 1];
            && Lone(text) == Lone(front) + (if c == '\n' && !EndsInCr(front) then 1 else 0)
            && (HasCrlf(front) ==> HasCrlf(text)) && (c == '\n' && EndsInCr(front) ==> front != "" && HasCrlf(text))
  {
    FrontHasCrlf(text);
    var front := text[..|text| - 1];
    if text[|text| - 1] == '\n' && EndsInCr(front) {
      assert text[|text| - 2] == '\r' && text[|text| - 1] == '\n';
    }
  }

  lemma FrontHasCrlf(text: string)
    requires text != ""
    ensures HasCrlf(text[..|text| - 1]) ==> HasCrlf(text)
  {
    var front := text[..|text| - 1];
    if HasCrlf(front) {
      var i :| 0 < i < |front| && front[i - 1] == '\r' && front[i] == '\n';
      assert text[i - 1] == '\r' && text[i] == '\n';
    }
  }

  /** A carriage return the last line ends in comes off the joined text too. */
  lemma CutCr(lines: seq<string>, eol: string)
    requires lines != [] && EndsInCr(lines[|lines| - 1])
    ensures Join(lines[|lines| - 1 := Chomp(lines[|lines| - 1])], eol) + "\r" == Join(lines, eol)
  {
    var last := |lines| - 1;
    var cut := lines[last := Chomp(lines[last])];
    JoinLast(cut, eol, "\r");
    assert lines[last] == cut[last] + "\r";
    assert cut[last := cut[last] + "\r"] == lines;
  }

  /** Splitting and joining with the text's own ending gives the text back exactly when it does not mix endings. */
  lemma SplitJoinsBack(text: string)
    ensures Join(Split(text), Eol(text)) == text <==> (HasCrlf(text) ==> Lone(text) == 0)
  {
    JoinOfSplit(text, Eol(text));
  }

  predicate Clean(l: string) { '\n' !in l && '\r' !in l }

  predicate AllClean(lines: seq<string>) { forall i :: 0 <= i < |lines| ==> Clean(lines[i]) }

  lemma {:induction false} SplitAdds(text: string, l: string)
    requires '\n' !in l
    ensures Split(text + l) == Split(text)[|Split(text)| - 1 := Split(text)[|Split(text)| - 1] + l]
  {
    if l == "" {
      var lines := Split(text);
      assert text + l == text && lines[|lines| - 1] + l == lines[|lines| - 1];
      assert lines[|lines| - 1 := lines[|lines| - 1]] == lines;
    } else {
      var front, c := l[..|l| - 1], l[|l| - 1];
      SplitAdds(text, front);
      assert (text + l)[..|text + l| - 1] == text + front && l == front + [c];
      assert (text + l)[|text + l| - 1] == c;
      var end := Split(text)[|Split(text)| - 1];
      assert end + front + [c] == end + l;
    }
  }

  lemma SplitEnding(text: string, eol: string)
    requires (eol == LF && !EndsInCr(text)) || eol == CRLF
    ensures Split(text + eol) == Split(text) + [""]
  {
    var lines := Split(text);
    var last := |lines| - 1;
    if eol == LF {
      assert (text + eol)[..|text|] == text;
      LastLineEnds(text);
      assert lines[..last] + [lines[last], ""] == lines + [""];
    } else {
      var cr := text + "\r";
      SplitAdds(text, "\r");
      assert (text + eol)[..|text| + 1] == cr;
      assert Chomp(lines[last] + "\r") == lines[last];
      assert lines[..last] + [lines[last], ""] == lines + [""];
    }
  }

  /** Splitting gives back the lines a text was joined of. */
  lemma {:induction false} SplitOfJoin(lines: seq<string>, eol: string)
    requires lines != [] && AllClean(lines) && (eol == LF || eol == CRLF)
    ensures Split(Join(lines, eol)) == lines
    ensures !EndsInCr(Join(lines, eol))
  {
    if |lines| == 1 {
      OneLine(lines[0]);
      assert lines == [lines[0]];
    } else {
      var front, l := lines[..|lines| - 1], lines[|lines| - 1];
      SplitOfJoin(front, eol);
      var text := Join(front, eol);
      assert lines == front + [l];
      hide Split;
      JoinNext(front, eol, l);
      hide Join;
      SplitEnding(text, eol);
      SplitAdds(text + eol, l);
      assert "" + l == l;
      assert (front + [""])[|front| := l] == lines;
      assert Clean(lines[|lines| - 1]);
      EndsClean(text + eol, l, eol);
    }
  }

  lemma EndsClean(text: string, l: string, eol: string)
    requires Clean(l) && (eol == LF || eol == CRLF) && |eol| <= |text| && text[|text| - |eol|..] == eol
    ensures !EndsInCr(text + l)
  {
    if l != "" {
      assert (text + l)[|text + l| - 1] == l[|l| - 1];
    } else {
      assert text + l == text && text[|text| - 1] == eol[|eol| - 1];
    }
  }

  lemma OneLine(l: string)
    requires Clean(l)
    ensures Split(l) == [l] && !EndsInCr(l)
  {
    SplitAdds("", l);
    assert "" + l == l;
  }

  lemma {:induction false} NoCrJoins(lines: seq<string>)
    requires lines != [] && AllClean(lines)
    ensures '\r' !in Join(lines, LF)
  {
    if |lines| > 1 {
      NoCrJoins(lines[..|lines| - 1]);
    }
  }

  /** A text of more than one line keeps its ending. */
  lemma EolOfJoin(lines: seq<string>, eol: string)
    requires |lines| > 1 && AllClean(lines) && (eol == LF || eol == CRLF)
    ensures Eol(Join(lines, eol)) == eol
  {
    var text := Join(lines, eol);
    if eol == LF {
      NoCrJoins(lines);
    } else {
      var front := Join(lines[..|lines| - 1], eol);
      assert text == front + CRLF + lines[|lines| - 1];
      assert text[|front|] == '\r' && text[|front| + 1] == '\n';
    }
  }
}
