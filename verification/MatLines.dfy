/**
 * Which lines of a material's text are which (`machine/matText.ts`), by the texts they are made of: each pattern of
 * setMatValue as the set of all lines it matches.
 */
module MatLines {
  import opened Prelude
  import opened MatText

  const SPACES := " \t\r\n\U{b}\U{c}"

  ghost predicate Spaces(l: string) { forall c :: c in l ==> c in SPACES }

  lemma BlankIs(l: string)
    ensures AllBlank(l) <==> Spaces(l)
  {
    assert forall i :: 0 <= i < |l| ==> l[i] in l;
  }

  /** The line that says a material follows: its key, and nothing but white space behind it. */
  lemma SavedIff(l: string)
    ensures IsSaved(l) <==> exists tail :: l == "  m_SavedProperties:" + tail && Spaces(tail)
  {
    if IsSaved(l) {
      BlankIs(l[|SAVED|..]);
      assert l == "  m_SavedProperties:" + l[|SAVED|..];
    }
    forall tail | l == "  m_SavedProperties:" + tail && Spaces(tail) ensures IsSaved(l) {
      BlankIs(tail);
      assert l[|SAVED|..] == tail;
    }
  }

  /** The lines of the part under it: those indented by three spaces or more, and blank ones. */
  lemma DeepIff(l: string)
    ensures IsDeep(l) <==> (|l| >= 3 && l[0] == ' ' && l[1] == ' ' && l[2] == ' ') || Spaces(l)
  {
    BlankIs(l);
  }

  /** A section's header: its key, indented by four spaces, whatever follows. */
  lemma HeadIff(l: string)
    ensures IsHead(l, Floats) <==> "    m_Floats:" <= l
    ensures IsHead(l, Ints) <==> "    m_Ints:" <= l
    ensures IsHead(l, Colors) <==> "    m_Colors:" <= l
  {
    HeadTextIs(Floats);
    HeadTextIs(Ints);
    HeadTextIs(Colors);
    assert HeadText(Floats) == "    m_Floats:" && HeadText(Ints) == "    m_Ints:" &&
      HeadText(Colors) == "    m_Colors:";
    hide HeadText;
  }

  predicate Letter(c: char) { 65 <= c as int <= 90 || 97 <= c as int <= 122 || c == '_' }

  /** Names: a letter or underscore, then letters, underscores and digits. */
  lemma NameIff(n: string)
    ensures IsName(n) <==> n != "" && Letter(n[0]) && forall c :: c in n ==> Letter(c) || 48 <= c as int <= 57
  {
    assert forall i :: 0 <= i < |n| ==> n[i] in n;
  }

  /** An entry with a name and a value: the name between the dash and a colon and space, the value one line's. */
  lemma EntryIff(l: string, name: string, value: string)
    ensures EntryOf(l) == Some((name, value)) <==>
      l == "    - " + name + ": " + value && IsName(name) && OneLined(value)
  {
    if EntryOf(l) == Some((name, value)) {
      EntryIsText(l, name, value);
    }
    if l == "    - " + name + ": " + value && IsName(name) && OneLined(value) {
      EntryReads(name, value);
      assert l == EntryText(name, value);
    }
  }

  lemma EntryIsText(l: string, name: string, value: string)
    requires EntryOf(l) == Some((name, value))
    ensures l == "    - " + name + ": " + value && IsName(name) && OneLined(value)
  {
    var k := EntryParts(l, name, value);
    hide *;
    var body := l[|"    - "|..];
    Rejoined(l, "    - ");
    Rejoined(body[k..], ": ");
    Regrouped("    - ", name, ": ", value);
    assert body == body[..k] + body[k..];
  }

  lemma EntryParts(l: string, name: string, value: string) returns (k: nat)
    requires EntryOf(l) == Some((name, value))
    ensures IsName(name) && OneLined(value) && "    - " <= l
    ensures var body := l[|"    - "|..];
            k <= |body| && name == body[..k] && ": " <= body[k..] && value == body[k..][2..]
  {
    hide IsName;
    hide OneLined;
    var body := l[|ENTRY|..];
    k := NameEnd(body);
    assert ": " <= body[k..] ==> body[k..][2..] == body[k + 2..];
  }

  lemma Rejoined(l: string, head: string)
    requires head <= l
    ensures l == head + l[|head|..]
  {
  }

  lemma Regrouped(a: string, b: string, c: string, d: string)
    ensures a + (b + (c + d)) == a + b + c + d
  {
  }

  // ------------------------------------------------------------------ what trimming leaves

  lemma {:induction false} TrimEndIs(l: string)
    ensures TrimEnd(l) <= l && Spaces(l[|TrimEnd(l)|..])
    ensures TrimEnd(l) != "" ==> !IsBlank(TrimEnd(l)[|TrimEnd(l)| - 1])
  {
    if l != "" && IsBlank(l[|l| - 1]) {
      var front := l[..|l| - 1];
      TrimEndIs(front);
      assert l[|TrimEnd(l)|..] == front[|TrimEnd(l)|..] + [l[|l| - 1]];
    }
  }

  lemma {:induction false} TrimEndTo(a: string, tail: string)
    requires (a != "" ==> !IsBlank(a[|a| - 1])) && Spaces(tail)
    ensures TrimEnd(a + tail) == a
  {
    if tail == "" {
      assert a + tail == a;
    } else {
      var front := tail[..|tail| - 1];
      assert tail[|tail| - 1] in tail && forall c :: c in front ==> c in tail;
      TrimEndTo(a, front);
      assert (a + tail)[..|a + tail| - 1] == a + front;
    }
  }

  /** A header whose list is empty: a colon and `[]` with white space at most between and behind them. */
  lemma EmptyListIff(l: string)
    ensures IsEmptyList(l) <==>
            exists head, between, tail :: l == head + ":" + between + "[]" + tail && Spaces(between) && Spaces(tail)
  {
    if IsEmptyList(l) {
      EmptyListHas(l);
    }
    forall head, between, tail | l == head + ":" + between + "[]" + tail && Spaces(between) && Spaces(tail)
      ensures IsEmptyList(l)
    {
      var b := head + ":" + between;
      TrimEndTo(b + "[]", tail);
      TrimEndTo(head + ":", between);
      var a := TrimEnd(l);
      assert a == b + "[]" && a[..|a| - 2] == b;
    }
  }

  lemma EmptyListHas(l: string)
    requires IsEmptyList(l)
    ensures exists head, between, tail :: l == head + ":" + between + "[]" + tail && Spaces(between) && Spaces(tail)
  {
    var a := TrimEnd(l);
    TrimEndIs(l);
    var b := a[..|a| - 2];
    var c := TrimEnd(b);
    TrimEndIs(b);
    var head, between, tail := c[..|c| - 1], b[|c|..], l[|a|..];
    assert c == head + ":" && b == c + between && a == b + "[]" && l == a + tail;
  }
}
