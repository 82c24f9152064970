/**
 * A value written into a material file's text (`machine/matText.ts`, setMatValue): one entry line of a section under
 * m_SavedProperties is replaced, or added in name order.
 */
module MatText {
  import opened Prelude
  import opened TextLines

  datatype Section = Floats | Ints | Colors

  function NameOf(s: Section): string {
    match s
    case Floats => "m_Floats"
    case Ints => "m_Ints"
    case Colors => "m_Colors"
  }

  // What the lines are.

  predicate IsBlank(c: char) { c in " \t\r\n\U{b}\U{c}" }

  predicate AllBlank(l: string) { forall i :: 0 <= i < |l| ==> IsBlank(l[i]) }

  const SAVED := "  m_SavedProperties:"
  const ENTRY := "    - "

  predicate IsSaved(l: string) { SAVED <= l && AllBlank(l[|SAVED|..]) }

  predicate IsDeep(l: string) { "   " <= l || AllBlank(l) }

  function HeadText(s: Section): string { "    " + NameOf(s) + ":" }

  predicate IsHead(l: string, s: Section) { HeadText(s) <= l }

  predicate IsEntry(l: string) { ENTRY <= l }

  function TrimEnd(l: string): string {
    if l != "" && IsBlank(l[|l| - 1]) then TrimEnd(l[..|l| - 1]) else l
  }

  function TrimStart(l: string): string {
    if l != "" && IsBlank(l[0]) then TrimStart(l[1..]) else l
  }

  function Trim(l: string): string { TrimEnd(TrimStart(l)) }

  predicate EndsIn(l: string, end: string) { |end| <= |l| && l[|l| - |end|..] == end }

  /** A header whose list is written `[]`. */
  predicate IsEmptyList(l: string) {
    var a := TrimEnd(l);
    EndsIn(a, "[]") && EndsIn(TrimEnd(a[..|a| - 2]), ":")
  }

  predicate IsLetter(c: char) { 'a' <= c <= 'z' || 'A' <= c <= 'Z' || c == '_' }

  predicate IsNameChar(c: char) { IsLetter(c) || '0' <= c <= '9' }

  predicate IsName(n: string) { n != "" && IsLetter(n[0]) && forall i :: 0 <= i < |n| ==> IsNameChar(n[i]) }

  /** Where the name characters at the start of a text end. */
  function NameEnd(l: string): (k: nat)
    ensures k <= |l| && (forall i :: 0 <= i < k ==> IsNameChar(l[i])) && (k < |l| ==> !IsNameChar(l[k]))
  {
    if l != "" && IsNameChar(l[0]) then 1 + NameEnd(l[1..]) else 0
  }

  /** A value's text is one line's. */
  predicate OneLined(v: string) { forall i :: 0 <= i < |v| ==> v[i] !in "\r\n\U{2028}\U{2029}" }

  /** The name and the value of an entry line, when it has them. */
  function EntryOf(l: string): Option<(string, string)> {
    if !IsEntry(l) then None
    else
      var body := l[|ENTRY|..];
      var k := NameEnd(body);
      if IsName(body[..k]) && ": " <= body[k..] &&
        OneLined(body[k + 2..]) then Some((body[..k], body[k + 2..])) else None
  }

  predicate Names(l: string, name: string) { EntryOf(l).Some? && EntryOf(l).value.0 == name }

  function EntryText(name: string, value: string): string { ENTRY + name + ": " + value }

  /** The value's text as the source writes it: one line, no blanks around it. */
  predicate IsValue(v: string) { OneLined(v) && Trim(v) == v }

  /** The order of names. */
  predicate Less(a: string, b: string) {
    b != "" && (a == "" || a[0] < b[0] || (a[0] == b[0] && Less(a[1..], b[1..])))
  }

  // Finding a place.

  function SavedAt(lines: seq<string>, i: nat): Option<nat>
    decreases |lines| - i
  {
    if i >= |lines| then None else if IsSaved(lines[i]) then Some(i) else SavedAt(lines, i + 1)
  }

  function HeadAt(lines: seq<string>, i: nat, s: Section): Option<nat>
    decreases |lines| - i
  {
    if i >= |lines| || !IsDeep(lines[i]) then None else if IsHead(lines[i], s) then Some(i) else HeadAt(lines, i + 1, s)
  }

  /** The first of the entries from `i` on that `name` has. */
  function NamedAt(lines: seq<string>, i: nat, name: string): Option<nat>
    decreases |lines| - i
  {
    if i >= |lines| || !IsEntry(lines[i]) then None
    else if Names(lines[i], name) then Some(i)
    else NamedAt(lines, i + 1, name)
  }

  predicate Beyond(l: string, name: string) { EntryOf(l).Some? && Less(name, EntryOf(l).value.0) }

  /** Where a new entry goes: before the first one of a greater name, else behind the last. */
  function PlaceAt(lines: seq<string>, i: nat, name: string): nat
    decreases |lines| - i
  {
    if i < |lines| && IsEntry(lines[i]) && !Beyond(lines[i], name) then PlaceAt(lines, i + 1, name) else i
  }

  // Setting and reading.

  datatype Result = Done(lines: seq<string>, was: Option<string>) | BadName | NotMaterial | NoSection

  function Insert(lines: seq<string>, at: nat, l: string): seq<string>
    requires at <= |lines|
  {
    lines[..at] + [l] + lines[at..]
  }

  function HeadOf(lines: seq<string>, s: Section): Option<nat> {
    var saved := SavedAt(lines, 0);
    if saved.None? then None else HeadAt(lines, saved.value + 1, s)
  }

  lemma {:induction false} SavedBound(lines: seq<string>, i: nat)
    ensures var r := SavedAt(lines, i);
            r.Some? ==> i <= r.value < |lines| && IsSaved(lines[r.value]) && forall k :: i <= k < r.value ==>
              !IsSaved(lines[k])
    decreases |lines| - i
  {
    hide IsSaved;
    if i < |lines| && !IsSaved(lines[i]) {
      SavedBound(lines, i + 1);
    }
  }

  lemma {:induction false} HeadBound(lines: seq<string>, i: nat, s: Section)
    ensures var r := HeadAt(lines, i, s);
            r.Some? ==> i <= r.value < |lines| && IsHead(lines[r.value], s) && forall k :: i <= k <= r.value ==>
              IsDeep(lines[k])
    decreases |lines| - i
  {
    hide IsDeep;
    hide IsHead;
    if i < |lines| && IsDeep(lines[i]) && !IsHead(lines[i], s) {
      HeadBound(lines, i + 1, s);
    }
  }

  lemma {:induction false} NamedBound(lines: seq<string>, i: nat, name: string)
    ensures var r := NamedAt(lines, i, name);
            r.Some? ==> i <= r.value < |lines| && Names(lines[r.value], name) &&
                        forall k :: i <= k < r.value ==> IsEntry(lines[k]) && !Names(lines[k], name)
    decreases |lines| - i
  {
    hide IsEntry;
    hide Names;
    if i < |lines| && IsEntry(lines[i]) && !Names(lines[i], name) {
      NamedBound(lines, i + 1, name);
    }
  }

  lemma {:induction false} PlaceBound(lines: seq<string>, i: nat, name: string)
    requires i <= |lines|
    ensures var p := PlaceAt(lines, i, name);
            i <= p <= |lines| && (forall k :: i <= k < p ==> IsEntry(lines[k]) && !Beyond(lines[k], name)) &&
            (p < |lines| ==> !IsEntry(lines[p]) || Beyond(lines[p], name))
    decreases |lines| - i
  {
    hide IsEntry;
    hide Beyond;
    if i < |lines| && IsEntry(lines[i]) && !Beyond(lines[i], name) {
      PlaceBound(lines, i + 1, name);
    }
  }

  lemma HeadOfBound(lines: seq<string>, s: Section)
    ensures HeadOf(lines, s).Some? ==>
      SavedAt(lines, 0).Some? && SavedAt(lines, 0).value < HeadOf(lines, s).value < |lines| &&
      IsHead(lines[HeadOf(lines, s).value], s)
  {
    SavedBound(lines, 0);
    if SavedAt(lines, 0).Some? {
      HeadBound(lines, SavedAt(lines, 0).value + 1, s);
    }
  }

  function SetIn(lines: seq<string>, head: nat, name: string, value: string): (r: Result)
    requires head < |lines|
    ensures r.Done?
  {
    NamedBound(lines, head + 1, name);
    PlaceBound(lines, head + 1, name);
    var named := NamedAt(lines, head + 1, name);
    if named.Some? then
      Done(lines[named.value := EntryText(name, value)], Some(Trim(EntryOf(lines[named.value]).value.1)))
    else Done(Insert(lines, PlaceAt(lines, head + 1, name), EntryText(name, value)), None)
  }

  function SetLines(lines: seq<string>, name: string, s: Section, value: string): Result {
    HeadOfBound(lines, s);
    if !IsName(name) then BadName
    else if SavedAt(lines, 0).None? then NotMaterial
    else if HeadOf(lines, s).None? then NoSection
    else
      var head := HeadOf(lines, s).value;
      if IsEmptyList(lines[head]) then
        Done(Insert(lines[head := HeadText(s)], head + 1, EntryText(name, value)), None)
      else SetIn(lines, head, name, value)
  }

  /** The value a property has in a section, trimmed as the source trims it. */
  function ValueFrom(lines: seq<string>, i: nat, name: string): Option<string>
    decreases |lines| - i
  {
    if i >= |lines| || !IsEntry(lines[i]) then None
    else if Names(lines[i], name) then Some(Trim(EntryOf(lines[i]).value.1))
    else ValueFrom(lines, i + 1, name)
  }

  function Lookup(lines: seq<string>, s: Section, name: string): Option<string> {
    HeadOfBound(lines, s);
    var head := HeadOf(lines, s);
    if head.None? || IsEmptyList(lines[head.value]) then None else ValueFrom(lines, head.value + 1, name)
  }

  // What the lines say of each other.

  lemma EntryLine(l: string, s: Section)
    requires IsEntry(l)
    ensures IsDeep(l) && !IsSaved(l) && !IsHead(l, s)
  {
    assert l[..|ENTRY|] == ENTRY && l[4] == '-' && l[2] == ' ' && l[..3] == "   ";
    assert SAVED[2] == 'm' && HeadText(s)[4] == 'm';
  }

  lemma HeadLine(l: string, s: Section, t: Section)
    requires IsHead(l, s)
    ensures !IsEntry(l) && !IsSaved(l) && IsDeep(l) && (IsHead(l, t) ==> t == s)
  {
    assert l[4] == HeadText(s)[4] == 'm' && l[2] == HeadText(s)[2] == ' ' && ENTRY[4] == '-' && SAVED[2] == 'm';
    assert l[6] == HeadText(s)[6] && (IsHead(l, t) ==> l[6] == HeadText(t)[6]);
    assert HeadText(Floats)[6] == 'F' && HeadText(Ints)[6] == 'I' && HeadText(Colors)[6] == 'C';
    assert l[..3] == "   ";
  }

  lemma HeadTextIs(s: Section)
    ensures IsHead(HeadText(s), s) && !IsEmptyList(HeadText(s))
  {
    var l := HeadText(s);
    assert l[|l| - 1] == ':' && TrimEnd(l) == l;
    assert "[]"[1] == ']';
  }

  /** A written entry reads as what was written. */
  lemma EntryReads(name: string, value: string)
    requires IsName(name) && OneLined(value)
    ensures IsEntry(EntryText(name, value)) && EntryOf(EntryText(name, value)) == Some((name, value))
  {
    var l := EntryText(name, value);
    var body := name + ": " + value;
    assert l == ENTRY + body && l[|ENTRY|..] == body;
    var k := NameEnd(body);
    assert body[|name|] == ':' && !IsNameChar(':');
    assert forall i :: 0 <= i < |name| ==> body[i] == name[i];
    assert k == |name|;
    assert body[..k] == name && body[k..] == ": " + value && body[k + 2..] == value;
  }

  /** A line is named by at most one name, and is then an entry. */
  lemma NamesMeans(l: string, name: string, other: string)
    ensures Names(l, name) <==> EntryOf(l).Some? && EntryOf(l).value.0 == name
    ensures Names(l, name) ==> IsEntry(l) && (Names(l, other) ==> other == name)
  {
  }

  lemma LookupAt(lines: seq<string>, s: Section, name: string)
    ensures HeadOf(lines, s).None? ==> Lookup(lines, s, name).None?
    ensures HeadOf(lines, s).Some? ==>
      var head := HeadOf(lines, s).value;
      SavedAt(lines, 0).Some? && head < |lines| && IsHead(lines[head], s) &&
      Lookup(lines, s, name) == if IsEmptyList(lines[head]) then None else ValueFrom(lines, head + 1, name)
  {
    hide IsEmptyList;
    hide IsHead;
    HeadOfBound(lines, s);
  }

  lemma SectionIs(lines: seq<string>, s: Section, at: nat)
    requires WithinSection(lines, s, at)
    ensures HeadOf(lines, s).Some? && HeadOf(lines, s).value < at <= |lines|
    ensures forall k :: HeadOf(lines, s).value < k < at ==> IsEntry(lines[k])
  {
  }

  // Inserting a line.

  lemma {:induction false} SavedInsert(lines: seq<string>, at: nat, l: string, i: nat)
    requires at <= |lines| && SavedAt(lines, i).Some? && SavedAt(lines, i).value < at
    ensures SavedAt(Insert(lines, at, l), i) == SavedAt(lines, i)
    decreases |lines| - i
  {
    hide IsSaved;
    SavedBound(lines, i);
    assert Insert(lines, at, l)[i] == lines[i];
    if !IsSaved(lines[i]) {
      SavedInsert(lines, at, l, i + 1);
    }
  }

  function Shifted(h: Option<nat>, at: nat): Option<nat> {
    if h.None? then None else Some(if h.value < at then h.value else h.value + 1)
  }

  lemma {:induction false} HeadShift(lines: seq<string>, at: nat, l: string, i: nat, s: Section)
    requires at <= |lines| && at <= i
    ensures HeadAt(Insert(lines, at, l), i + 1, s) == Shifted(HeadAt(lines, i, s), at)
    decreases |lines| - i
  {
    hide IsDeep;
    hide IsHead;
    if i < |lines| {
      assert Insert(lines, at, l)[i + 1] == lines[i];
      HeadShift(lines, at, l, i + 1, s);
      HeadBound(lines, i + 1, s);
    }
  }

  lemma {:induction false} HeadInsert(lines: seq<string>, at: nat, l: string, i: nat, s: Section)
    requires i <= at <= |lines| && IsDeep(l) && !IsHead(l, s) && forall k :: i <= k < at ==> IsDeep(lines[k])
    ensures HeadAt(Insert(lines, at, l), i, s) == Shifted(HeadAt(lines, i, s), at)
    decreases at - i
  {
    hide IsDeep;
    hide IsHead;
    var made := Insert(lines, at, l);
    if i == at {
      assert made[i] == l;
      HeadShift(lines, at, l, i, s);
    } else {
      assert made[i] == lines[i];
      HeadInsert(lines, at, l, i + 1, s);
    }
  }

  lemma {:induction false} ValueShift(lines: seq<string>, at: nat, l: string, i: nat, name: string)
    requires at <= |lines| && at <= i
    ensures ValueFrom(Insert(lines, at, l), i + 1, name) == ValueFrom(lines, i, name)
    decreases |lines| - i
  {
    hide IsEntry;
    hide Names;
    if i < |lines| {
      assert Insert(lines, at, l)[i + 1] == lines[i];
      ValueShift(lines, at, l, i + 1, name);
    }
  }

  lemma {:induction false} ValueInsert(lines: seq<string>, at: nat, l: string, i: nat, name: string)
    requires i <= at <= |lines| && IsEntry(l) && !Names(l, name) && forall k :: i <= k < at ==> IsEntry(lines[k])
    ensures ValueFrom(Insert(lines, at, l), i, name) == ValueFrom(lines, i, name)
    decreases at - i
  {
    hide IsEntry;
    hide Names;
    var made := Insert(lines, at, l);
    if i == at {
      assert made[i] == l;
      ValueShift(lines, at, l, i, name);
    } else {
      assert made[i] == lines[i];
      ValueInsert(lines, at, l, i + 1, name);
    }
  }

  /** The value depends on the lines up to the first that is no entry. */
  lemma {:induction false} ValueSame(lines: seq<string>, other: seq<string>, i: nat, q: nat, name: string)
    requires i <= q < |lines| && q < |other| && !IsEntry(lines[q]) && forall k :: i <= k <= q ==> lines[k] == other[k]
    ensures ValueFrom(lines, i, name) == ValueFrom(other, i, name)
    decreases q - i
  {
    hide IsEntry;
    hide Names;
    assert lines[i] == other[i];
    if i < q {
      ValueSame(lines, other, i + 1, q, name);
    }
  }

  /** The lines from a section's header to `at` are its entries. */
  ghost predicate WithinSection(lines: seq<string>, s: Section, at: nat) {
    && HeadOf(lines, s).Some? && HeadOf(lines, s).value < at <= |lines|
    && forall k :: HeadOf(lines, s).value < k < at ==> IsEntry(lines[k])
  }

  /** Where every header is once an entry is inserted into a section. */
  lemma HeadsAfterInsert(lines: seq<string>, s: Section, at: nat, l: string, t: Section)
    requires WithinSection(lines, s, at) && IsEntry(l)
    ensures HeadOf(Insert(lines, at, l), t) == Shifted(HeadOf(lines, t), at)
    ensures HeadOf(Insert(lines, at, l), s) == HeadOf(lines, s)
    ensures HeadOf(lines, t).Some? ==> HeadOf(lines, t).value <= HeadOf(lines, s).value || at <= HeadOf(lines, t).value
    ensures HeadOf(lines, t).Some? && t != s ==> HeadOf(lines, t).value != HeadOf(lines, s).value
  {
    hide IsDeep;
    hide IsHead;
    hide IsEntry;
    hide IsSaved;
    HeadOfBound(lines, s);
    HeadOfBound(lines, t);
    var saved, head := SavedAt(lines, 0).value, HeadOf(lines, s).value;
    HeadBound(lines, saved + 1, s);
    SavedInsert(lines, at, l, 0);
    EntryLine(l, t);
    forall k | saved < k < at ensures IsDeep(lines[k]) {
      if k > head {
        EntryLine(lines[k], t);
      }
    }
    HeadInsert(lines, at, l, saved + 1, t);
    EntryLine(l, s);
    HeadInsert(lines, at, l, saved + 1, s);
    if HeadOf(lines, t).Some? {
      var other := HeadOf(lines, t).value;
      if head < other < at {
        EntryLine(lines[other], t);
      }
      HeadLine(lines[head], s, t);
    }
  }

  /** An entry inserted into a section changes the value of its own name alone. */
  lemma InsertFrame(lines: seq<string>, s: Section, at: nat, l: string, t: Section, other: string)
    requires WithinSection(lines, s, at) && IsEntry(l) && !IsEmptyList(lines[HeadOf(lines, s).value])
    requires t != s || !Names(l, other)
    ensures Lookup(Insert(lines, at, l), t, other) == Lookup(lines, t, other)
  {
    hide IsDeep;
    hide IsHead;
    hide IsSaved;
    hide IsEmptyList;
    hide IsEntry;
    hide Names;
    hide HeadOf;
    HeadOfBound(lines, t);
    HeadOfBound(lines, s);
    HeadsAfterInsert(lines, s, at, l, t);
    var head, made := HeadOf(lines, s).value, Insert(lines, at, l);
    if HeadOf(lines, t).Some? {
      var h := HeadOf(lines, t).value;
      if t == s {
        ValueInsert(lines, at, l, h + 1, other);
      } else if h < head {
        assert !IsEntry(lines[head]) by {
          HeadLine(lines[head], s, t);
        }
        ValueSame(lines, made, h + 1, head, other);
      } else {
        assert made[h + 1] == lines[h];
        ValueShift(lines, at, l, h + 1, other);
      }
    }
  }

  lemma {:induction false} ValueFound(lines: seq<string>, i: nat, j: nat, name: string)
    requires i <= j < |lines| && Names(lines[j], name)
    requires forall k :: i <= k < j ==> IsEntry(lines[k]) && !Names(lines[k], name)
    ensures ValueFrom(lines, i, name) == Some(Trim(EntryOf(lines[j]).value.1)) && NamedAt(lines, i, name) == Some(j)
    decreases j - i
  {
    assert IsEntry(lines[j]);
    hide IsEntry;
    hide Names;
    if i < j {
      ValueFound(lines, i + 1, j, name);
    }
  }

  /** The inserted entry is the one its name finds. */
  lemma InsertReads(lines: seq<string>, s: Section, at: nat, name: string, value: string)
    requires WithinSection(lines, s, at) && IsName(name) && IsValue(value)
    requires !IsEmptyList(lines[HeadOf(lines, s).value])
    requires forall k :: HeadOf(lines, s).value < k < at ==> !Names(lines[k], name)
    ensures var made := Insert(lines, at, EntryText(name, value));
            && Lookup(made, s, name) == Some(value) && HeadOf(made, s) == HeadOf(lines, s)
            && NamedAt(made, HeadOf(made, s).value + 1, name) == Some(at)
  {
    hide *;
    var l := EntryText(name, value);
    WrittenReads(name, value);
    SectionIs(lines, s, at);
    HeadsAfterInsert(lines, s, at, l, s);
    LookupAt(lines, s, name);
    var head, made := HeadOf(lines, s).value, Insert(lines, at, l);
    InsertIs(lines, at, l);
    LookupAt(made, s, name);
    ValueFound(made, head + 1, at, name);
  }

  lemma InsertIs(lines: seq<string>, at: nat, l: string)
    requires at <= |lines|
    ensures var made := Insert(lines, at, l);
            |made| == |lines| + 1 && made[at] == l && (forall k :: 0 <= k < at ==> made[k] == lines[k]) &&
            forall k :: at < k < |made| ==> made[k] == lines[k - 1]
  {
  }

  lemma WrittenReads(name: string, value: string)
    requires IsName(name) && IsValue(value)
    ensures IsEntry(EntryText(name, value)) && Names(EntryText(name, value), name)
    ensures EntryOf(EntryText(name, value)).Some? && Trim(EntryOf(EntryText(name, value)).value.1) == value
  {
    EntryReads(name, value);
  }

  // Replacing a line.

  lemma {:induction false} SavedReplace(lines: seq<string>, j: nat, l: string, i: nat)
    requires j < |lines| && !IsSaved(lines[j]) && !IsSaved(l)
    ensures SavedAt(lines[j := l], i) == SavedAt(lines, i)
    decreases |lines| - i
  {
    hide IsSaved;
    if i < |lines| {
      SavedReplace(lines, j, l, i + 1);
    }
  }

  lemma {:induction false} HeadReplace(lines: seq<string>, j: nat, l: string, i: nat, s: Section)
    requires j < |lines| && IsDeep(lines[j]) && IsDeep(l) && (IsHead(lines[j], s) <==> IsHead(l, s))
    ensures HeadAt(lines[j := l], i, s) == HeadAt(lines, i, s)
    decreases |lines| - i
  {
    hide IsDeep;
    hide IsHead;
    if i < |lines| {
      HeadReplace(lines, j, l, i + 1, s);
    }
  }

  lemma {:induction false} ValueReplace(lines: seq<string>, j: nat, l: string, i: nat, name: string)
    requires j < |lines| && IsEntry(lines[j]) && IsEntry(l) && !Names(lines[j], name) && !Names(l, name)
    ensures ValueFrom(lines[j := l], i, name) == ValueFrom(lines, i, name)
    decreases |lines| - i
  {
    hide IsEntry;
    hide Names;
    if i < |lines| {
      ValueReplace(lines, j, l, i + 1, name);
    }
  }

  /** A value replaced in a section's entry leaves the headers where they are. */
  lemma HeadsAfterReplace(lines: seq<string>, j: nat, l: string, t: Section)
    requires j < |lines| && IsEntry(lines[j]) && IsEntry(l)
    ensures HeadOf(lines[j := l], t) == HeadOf(lines, t)
  {
    hide IsDeep;
    hide IsHead;
    hide IsSaved;
    EntryLine(lines[j], t);
    EntryLine(l, t);
    hide IsEntry;
    SavedReplace(lines, j, l, 0);
    if SavedAt(lines, 0).Some? {
      HeadReplace(lines, j, l, SavedAt(lines, 0).value + 1, t);
    }
  }

  lemma {:induction false} ValueBehind(lines: seq<string>, j: nat, l: string, i: nat, name: string)
    requires j < |lines| && j < i
    ensures ValueFrom(lines[j := l], i, name) == ValueFrom(lines, i, name)
    decreases |lines| - i
  {
    hide IsEntry;
    hide Names;
    if i < |lines| {
      ValueBehind(lines, j, l, i + 1, name);
    }
  }

  /** A value replaced under its name changes that name's value in that section alone. */
  lemma ReplaceFrame(lines: seq<string>, s: Section, j: nat, l: string, name: string, t: Section, other: string)
    requires WithinSection(lines, s, j) && j < |lines| && Names(lines[j], name) && Names(l, name)
    requires t != s || other != name
    ensures Lookup(lines[j := l], t, other) == Lookup(lines, t, other)
  {
    hide *;
    NamesMeans(lines[j], name, other);
    NamesMeans(l, name, other);
    SectionIs(lines, s, j);
    LookupAt(lines, t, other);
    LookupAt(lines, s, name);
    HeadsAfterReplace(lines, j, l, t);
    var head, made := HeadOf(lines, s).value, lines[j := l];
    LookupAt(made, t, other);
    if HeadOf(lines, t).Some? {
      var h := HeadOf(lines, t).value;
      HeadOutside(lines, s, j, t);
      if t == s {
        ValueReplace(lines, j, l, h + 1, other);
      } else if h < head {
        HeadLine(lines[head], s, t);
        ValueSame(lines, made, h + 1, head, other);
      } else {
        ValueBehind(lines, j, l, h + 1, other);
      }
    }
  }

  /** No header lies among a section's entries. */
  lemma HeadOutside(lines: seq<string>, s: Section, j: nat, t: Section)
    requires WithinSection(lines, s, j) && j < |lines| && IsEntry(lines[j]) && HeadOf(lines, t).Some?
    ensures t == s || HeadOf(lines, t).value < HeadOf(lines, s).value || j < HeadOf(lines, t).value
    ensures HeadOf(lines, t).value != j
  {
    hide *;
    SectionIs(lines, s, j);
    LookupAt(lines, t, "");
    LookupAt(lines, s, "");
    var h, head := HeadOf(lines, t).value, HeadOf(lines, s).value;
    HeadLine(lines[h], t, s);
    HeadLine(lines[head], s, t);
  }

  lemma ReplaceReads(lines: seq<string>, s: Section, j: nat, name: string, value: string)
    requires WithinSection(lines, s, j) && j < |lines| && IsName(name) && IsValue(value) && Names(lines[j], name)
    requires !IsEmptyList(lines[HeadOf(lines, s).value])
    requires forall k :: HeadOf(lines, s).value < k < j ==> !Names(lines[k], name)
    ensures var made := lines[j := EntryText(name, value)];
            && Lookup(made, s, name) == Some(value) && HeadOf(made, s) == HeadOf(lines, s)
            && NamedAt(made, HeadOf(made, s).value + 1, name) == Some(j)
  {
    hide *;
    var l := EntryText(name, value);
    WrittenReads(name, value);
    NamesMeans(lines[j], name, name);
    SectionIs(lines, s, j);
    HeadsAfterReplace(lines, j, l, s);
    LookupAt(lines, s, name);
    var head, made := HeadOf(lines, s).value, lines[j := l];
    LookupAt(made, s, name);
    ValueFound(made, head + 1, j, name);
  }

  // The whole edit.

  lemma {:induction false} NotNamed(lines: seq<string>, i: nat, p: nat, name: string)
    requires NamedAt(lines, i, name).None? && i <= p <= |lines| && forall k :: i <= k < p ==> IsEntry(lines[k])
    ensures forall k :: i <= k < p ==> !Names(lines[k], name)
    decreases p - i
  {
    hide IsEntry;
    hide Names;
    if i < p {
      NotNamed(lines, i + 1, p, name);
    }
  }

  /**
   * An empty header opened: nothing else moves, and its section's values are those of the entries right behind it, if
   * any.
   */
  lemma Opened(lines: seq<string>, s: Section, t: Section, other: string)
    requires HeadOf(lines, s).Some?
    ensures var head := HeadOf(lines, s).value;
            head < |lines| && HeadOf(lines[head := HeadText(s)], t) == HeadOf(lines, t) &&
            (t == s ==> WithinSection(lines[head := HeadText(s)], s, head + 1)) &&
            !IsEmptyList(lines[head := HeadText(s)][head]) &&
            Lookup(lines[head := HeadText(s)], t, other) == if t == s then ValueFrom(lines, head + 1, other)
              else Lookup(lines, t, other)
  {
    hide *;
    LookupAt(lines, s, other);
    LookupAt(lines, t, other);
    HeadTextIs(s);
    var head, l := HeadOf(lines, s).value, HeadText(s);
    var made := lines[head := l];
    HeadLine(lines[head], s, t);
    HeadLine(l, s, t);
    HeadsAfterOpening(lines, s, l, t);
    LookupAt(made, t, other);
    if HeadOf(lines, t).Some? {
      var h := HeadOf(lines, t).value;
      if head <= h {
        ValueBehind(lines, head, l, h + 1, other);
        assert t != s ==> h != head;
      } else {
        ValueStops(lines, head, l, h + 1, other);
      }
    }
  }

  lemma HeadsAfterOpening(lines: seq<string>, s: Section, l: string, t: Section)
    requires HeadOf(lines, s).Some? && HeadOf(lines, s).value < |lines| && IsHead(lines[HeadOf(lines, s).value], s) &&
      IsHead(l, s)
    ensures HeadOf(lines[HeadOf(lines, s).value := l], t) == HeadOf(lines, t)
    ensures t == s ==> WithinSection(lines[HeadOf(lines, s).value := l], s, HeadOf(lines, s).value + 1)
  {
    hide IsDeep;
    hide IsHead;
    hide IsSaved;
    hide HeadAt;
    hide SavedAt;
    var head := HeadOf(lines, s).value;
    HeadLine(lines[head], s, t);
    HeadLine(l, s, t);
    SavedReplace(lines, head, l, 0);
    HeadReplace(lines, head, l, SavedAt(lines, 0).value + 1, t);
  }

  lemma {:induction false} ValueStops(lines: seq<string>, j: nat, l: string, i: nat, name: string)
    requires i <= j < |lines| && !IsEntry(lines[j]) && !IsEntry(l)
    ensures ValueFrom(lines[j := l], i, name) == ValueFrom(lines, i, name)
    decreases j - i
  {
    hide IsEntry;
    hide Names;
    if i < j {
      ValueStops(lines, j, l, i + 1, name);
    }
  }

  /** How an edit ends in success, by where the name is or goes. */
  lemma SetCases(lines: seq<string>, name: string, s: Section, value: string)
    requires SetLines(lines, name, s, value).Done?
    ensures IsName(name) && HeadOf(lines, s).Some? && HeadOf(lines, s).value < |lines|
    ensures var r, head, l := SetLines(lines, name, s, value), HeadOf(lines, s).value, EntryText(name, value);
            var named, place := NamedAt(lines, head + 1, name), PlaceAt(lines, head + 1, name);
            if IsEmptyList(lines[head]) then r == Done(Insert(lines[head := HeadText(s)], head + 1, l), None)
            else if named.Some? then
              named.value < |lines| && EntryOf(lines[named.value]).Some? &&
              r == Done(lines[named.value := l], Some(Trim(EntryOf(lines[named.value]).value.1)))
            else place <= |lines| && r == Done(Insert(lines, place, l), None)
  {
    hide IsEmptyList;
    hide EntryOf;
    hide Trim;
    hide HeadOf;
    hide SavedAt;
    hide IsName;
    hide Insert;
    hide HeadText;
    hide EntryText;
    LookupAt(lines, s, name);
    var head := HeadOf(lines, s).value;
    NamedBound(lines, head + 1, name);
    PlaceBound(lines, head + 1, name);
    if NamedAt(lines, head + 1, name).Some? {
      NamesMeans(lines[NamedAt(lines, head + 1, name).value], name, name);
    }
  }

  lemma NamedSection(lines: seq<string>, s: Section, name: string)
    requires HeadOf(lines, s).Some? && HeadOf(lines, s).value < |lines|
    ensures var head := HeadOf(lines, s).value;
            var named, place := NamedAt(lines, head + 1, name), PlaceAt(lines, head + 1, name);
            && (named.Some? ==>
              WithinSection(lines, s, named.value) && named.value < |lines| && Names(lines[named.value], name) &&
                                forall k :: head < k < named.value ==> !Names(lines[k], name))
            && (named.None? ==> WithinSection(lines, s, place) && forall k :: head < k < place ==>
              !Names(lines[k], name))
  {
    hide NamedAt;
    hide PlaceAt;
    hide Names;
    hide IsEntry;
    hide HeadOf;
    var head := HeadOf(lines, s).value;
    NamedBound(lines, head + 1, name);
    PlaceBound(lines, head + 1, name);
    if NamedAt(lines, head + 1, name).None? {
      NotNamed(lines, head + 1, PlaceAt(lines, head + 1, name), name);
    }
  }

  /** The value reads back as written, and `was` is what the property had. */
  lemma SetReads(lines: seq<string>, name: string, s: Section, value: string)
    requires IsValue(value) && SetLines(lines, name, s, value).Done?
    ensures Lookup(SetLines(lines, name, s, value).lines, s, name) == Some(value)
    ensures SetLines(lines, name, s, value).was == Lookup(lines, s, name)
  {
    hide *;
    SetCases(lines, name, s, value);
    var head := HeadOf(lines, s).value;
    LookupAt(lines, s, name);
    NamedSection(lines, s, name);
    if IsEmptyList(lines[head]) {
      Opened(lines, s, s, name);
      InsertReads(lines[head := HeadText(s)], s, head + 1, name, value);
    } else if NamedAt(lines, head + 1, name).Some? {
      var j := NamedAt(lines, head + 1, name).value;
      SectionIs(lines, s, j);
      ReplaceReads(lines, s, j, name, value);
      ValueFound(lines, head + 1, j, name);
    } else {
      NoValue(lines, head + 1, name);
      InsertReads(lines, s, PlaceAt(lines, head + 1, name), name, value);
    }
  }

  lemma {:induction false} NoValue(lines: seq<string>, i: nat, name: string)
    ensures ValueFrom(lines, i, name).None? <==> NamedAt(lines, i, name).None?
    decreases |lines| - i
  {
    hide IsEntry;
    hide Names;
    if i < |lines| {
      NoValue(lines, i + 1, name);
    }
  }

  /** Writing the same value again changes nothing. */
  lemma SetTwice(lines: seq<string>, name: string, s: Section, value: string)
    requires IsValue(value) && SetLines(lines, name, s, value).Done?
    ensures var r := SetLines(lines, name, s, value).lines;
            SetLines(r, name, s, value) == Done(r, Some(value))
  {
    hide *;
    SetCases(lines, name, s, value);
    var head, l := HeadOf(lines, s).value, EntryText(name, value);
    LookupAt(lines, s, name);
    NamedSection(lines, s, name);
    if IsEmptyList(lines[head]) {
      var open := lines[head := HeadText(s)];
      Opened(lines, s, s, name);
      InsertReads(open, s, head + 1, name, value);
      InsertIs(open, head + 1, l);
      SetAgain(Insert(open, head + 1, l), name, s, value, head, head + 1);
    } else if NamedAt(lines, head + 1, name).Some? {
      var j := NamedAt(lines, head + 1, name).value;
      SectionIs(lines, s, j);
      ReplaceReads(lines, s, j, name, value);
      SetAgain(lines[j := l], name, s, value, head, j);
    } else {
      var place := PlaceAt(lines, head + 1, name);
      SectionIs(lines, s, place);
      InsertReads(lines, s, place, name, value);
      InsertIs(lines, place, l);
      SetAgain(Insert(lines, place, l), name, s, value, head, place);
    }
  }

  lemma SetAgain(lines: seq<string>, name: string, s: Section, value: string, head: nat, at: nat)
    requires IsName(name) && IsValue(value) && HeadOf(lines, s) == Some(head) && head < at < |lines|
    requires !IsEmptyList(lines[head]) && lines[at] == EntryText(name, value) &&
      NamedAt(lines, head + 1, name) == Some(at)
    ensures SetLines(lines, name, s, value) == Done(lines, Some(value))
  {
    LookupAt(lines, s, name);
    hide IsEmptyList;
    hide HeadOf;
    hide SavedAt;
    hide NamedAt;
    hide IsName;
    hide Trim;
    hide EntryOf;
    hide EntryText;
    WrittenReads(name, value);
    assert lines[at := lines[at]] == lines;
  }

  /** What every other property's lookup is after an edit. */
  lemma SetElsewhere(lines: seq<string>, name: string, s: Section, value: string, t: Section, other: string)
    requires IsValue(value) && SetLines(lines, name, s, value).Done? && (t != s || other != name)
    ensures HeadOf(lines, s).Some? && HeadOf(lines, s).value < |lines|
    ensures var head := HeadOf(lines, s).value;
            Lookup(SetLines(lines, name, s, value).lines, t, other) ==
            if t == s && IsEmptyList(lines[head]) then ValueFrom(lines, head + 1, other) else Lookup(lines, t, other)
  {
    hide *;
    SetCases(lines, name, s, value);
    WrittenReads(name, value);
    var head, l := HeadOf(lines, s).value, EntryText(name, value);
    NamesMeans(l, name, other);
    NamedSection(lines, s, name);
    if IsEmptyList(lines[head]) {
      Opened(lines, s, t, other);
      Opened(lines, s, s, other);
      InsertFrame(lines[head := HeadText(s)], s, head + 1, l, t, other);
    } else if NamedAt(lines, head + 1, name).Some? {
      ReplaceFrame(lines, s, NamedAt(lines, head + 1, name).value, l, name, t, other);
    } else {
      InsertFrame(lines, s, PlaceAt(lines, head + 1, name), l, t, other);
    }
  }

  ghost predicate InRun(lines: seq<string>, i: nat, k: int) {
    i <= k < |lines| && forall m :: i <= m <= k ==> IsEntry(lines[m])
  }

  /** No entry of another name stands right behind a header that says its list is empty. */
  ghost predicate NoStray(lines: seq<string>, s: Section, name: string) {
    HeadOf(lines, s).Some? && HeadOf(lines, s).value < |lines| && IsEmptyList(lines[HeadOf(lines, s).value]) ==>
      forall k :: InRun(lines, HeadOf(lines, s).value + 1, k) ==> EntryOf(lines[k]).None? || Names(lines[k], name)
  }

  lemma {:induction false} ValueInRun(lines: seq<string>, i: nat, other: string)
    ensures ValueFrom(lines, i, other).Some? <==> exists k :: InRun(lines, i, k) && Names(lines[k], other)
    decreases |lines| - i
  {
    hide IsEntry;
    hide Names;
    if i < |lines| && IsEntry(lines[i]) {
      if Names(lines[i], other) {
        assert InRun(lines, i, i);
      } else {
        ValueInRun(lines, i + 1, other);
        if ValueFrom(lines, i + 1, other).Some? {
          var k :| InRun(lines, i + 1, k) && Names(lines[k], other);
          assert InRun(lines, i, k);
        }
        if k :| InRun(lines, i, k) && Names(lines[k], other) {
          assert InRun(lines, i + 1, k);
        }
      }
    }
  }

  lemma NoStrayMeans(lines: seq<string>, s: Section, name: string, k: nat)
    requires NoStray(lines, s, name) && HeadOf(lines, s).Some? && HeadOf(lines, s).value < |lines|
    requires IsEmptyList(lines[HeadOf(lines, s).value]) && InRun(lines, HeadOf(lines, s).value + 1, k)
    ensures k < |lines| && (EntryOf(lines[k]).None? || Names(lines[k], name))
  {
    hide IsEmptyList;
    hide HeadOf;
    hide EntryOf;
    hide Names;
  }

  lemma NoStrayKeeps(lines: seq<string>, name: string, s: Section, value: string, t: Section, other: string)
    requires IsValue(value) && SetLines(lines, name, s, value).Done? && (t != s || other != name) &&
      NoStray(lines, s, name)
    ensures Lookup(SetLines(lines, name, s, value).lines, t, other) == Lookup(lines, t, other)
  {
    hide SetLines;
    hide Lookup;
    hide ValueFrom;
    hide NoStray;
    hide IsEmptyList;
    hide HeadOf;
    hide EntryOf;
    hide Names;
    hide IsEntry;
    hide IsValue;
    SetElsewhere(lines, name, s, value, t, other);
    LookupAt(lines, s, other);
    var head := HeadOf(lines, s).value;
    if t == s && IsEmptyList(lines[head]) {
      ValueInRun(lines, head + 1, other);
      if ValueFrom(lines, head + 1, other).Some? {
        var k :| InRun(lines, head + 1, k) && Names(lines[k], other);
        NoStrayMeans(lines, s, name, k);
        NamesMeans(lines[k], name, other);
        NamesMeans(lines[k], other, name);
      }
    }
  }

  lemma StrayShows(lines: seq<string>, name: string, s: Section, value: string) returns (other: string)
    requires IsValue(value) && SetLines(lines, name, s, value).Done? && !NoStray(lines, s, name)
    ensures other != name && Lookup(SetLines(lines, name, s, value).lines, s, other) != Lookup(lines, s, other)
  {
    hide *;
    var k := StrayAt(lines, s, name);
    var head := HeadOf(lines, s).value;
    other := EntryOf(lines[k]).value.0;
    NamesMeans(lines[k], other, other);
    ValueInRun(lines, head + 1, other);
    SetElsewhere(lines, name, s, value, s, other);
    LookupAt(lines, s, other);
  }

  lemma StrayAt(lines: seq<string>, s: Section, name: string) returns (k: nat)
    requires !NoStray(lines, s, name)
    ensures HeadOf(lines, s).Some? && HeadOf(lines, s).value < |lines| && IsEmptyList(lines[HeadOf(lines, s).value])
    ensures InRun(lines, HeadOf(lines, s).value + 1, k) && k < |lines|
    ensures EntryOf(lines[k]).Some? && EntryOf(lines[k]).value.0 != name
  {
    hide IsEmptyList;
    hide EntryOf;
    hide HeadOf;
    hide IsEntry;
    var stray :| InRun(lines, HeadOf(lines, s).value + 1, stray) &&
      !(EntryOf(lines[stray]).None? || Names(lines[stray], name));
    k := stray;
  }

  /** An edit leaves every other property's lookup alone exactly when no stray entry stands behind an empty header. */
  lemma SetFrame(lines: seq<string>, name: string, s: Section, value: string)
    requires IsValue(value) && SetLines(lines, name, s, value).Done?
    ensures (forall t, other :: t != s || other != name ==>
               Lookup(SetLines(lines, name, s, value).lines, t, other) == Lookup(lines, t, other)) <==>
            NoStray(lines, s, name)
  {
    hide *;
    var r := SetLines(lines, name, s, value).lines;
    if NoStray(lines, s, name) {
      forall t, other | t != s || other != name ensures Lookup(r, t, other) == Lookup(lines, t, other) {
        NoStrayKeeps(lines, name, s, value, t, other);
      }
    } else {
      var other := StrayShows(lines, name, s, value);
    }
  }

  // Order.

  lemma {:induction false} LessIsTotal(a: string, b: string)
    ensures Less(a, b) || a == b || Less(b, a)
  {
    if a != "" && b != "" && a[0] == b[0] {
      LessIsTotal(a[1..], b[1..]);
      assert a == [a[0]] + a[1..] && b == [b[0]] + b[1..];
    }
  }

  lemma {:induction false} LessIsTransitive(a: string, b: string, c: string)
    requires Less(a, b) && Less(b, c)
    ensures Less(a, c)
  {
    if a != "" && a[0] == b[0] && b[0] == c[0] {
      LessIsTransitive(a[1..], b[1..], c[1..]);
    }
  }

  /** The named entries from `i` on, in strictly ascending order. */
  ghost predicate Ascending(lines: seq<string>, i: nat) {
    forall j, k :: i <= j < k && InRun(lines, i, k) && EntryOf(lines[j]).Some? && EntryOf(lines[k]).Some? ==>
      Less(EntryOf(lines[j]).value.0, EntryOf(lines[k]).value.0)
  }

  lemma PlaceIsBetween(lines: seq<string>, i: nat, name: string, j: nat)
    requires i <= |lines| && NamedAt(lines, i, name).None? && Ascending(lines, i)
    requires j < |lines| && InRun(lines, i, j) && EntryOf(lines[j]).Some?
    ensures j < PlaceAt(lines, i, name) ==> Less(EntryOf(lines[j]).value.0, name)
    ensures PlaceAt(lines, i, name) <= j ==> Less(name, EntryOf(lines[j]).value.0)
  {
    var p := PlaceAt(lines, i, name);
    PlaceBound(lines, i, name);
    assert forall m :: i <= m <= j ==> IsEntry(lines[m]);
    hide IsEntry;
    hide EntryOf;
    hide NamedAt;
    hide PlaceAt;
    var n := EntryOf(lines[j]).value.0;
    if j < p {
      NotNamed(lines, i, p, name);
      assert n != name by {
        NamesMeans(lines[j], n, n);
      }
      LessIsTotal(n, name);
    } else {
      assert Beyond(lines[p], name);
      if p < j {
        LessIsTransitive(name, EntryOf(lines[p]).value.0, n);
      }
    }
  }

  /** A run of the lines with an entry inserted is, without it, a run of the lines. */
  lemma RunWithout(lines: seq<string>, p: nat, l: string, i: nat, k: nat)
    requires i <= p <= |lines| && InRun(Insert(lines, p, l), i, k)
    ensures k < p ==> InRun(lines, i, k)
    ensures p < k ==> InRun(lines, i, k - 1)
    ensures forall j :: i <= j < p && j <= k ==> InRun(lines, i, j)
  {
    hide IsEntry;
    var made := Insert(lines, p, l);
    assert forall m :: i <= m < p ==> made[m] == lines[m];
    assert forall m :: p <= m < |lines| ==> made[m + 1] == lines[m];
    forall m | i <= m < p && m <= k ensures IsEntry(lines[m]) {
      assert IsEntry(made[m]);
    }
    forall m | p <= m < k ensures IsEntry(lines[m]) {
      assert IsEntry(made[m + 1]);
    }
  }

  lemma AscendingPair(lines: seq<string>, i: nat, j: nat, k: nat)
    requires Ascending(lines, i) && i <= j < k && InRun(lines, i, k) && k < |lines|
    requires EntryOf(lines[j]).Some? && EntryOf(lines[k]).Some?
    ensures Less(EntryOf(lines[j]).value.0, EntryOf(lines[k]).value.0)
  {
    hide InRun;
    hide EntryOf;
  }

  lemma InsertedPair(lines: seq<string>, i: nat, name: string, l: string, j: nat, k: nat)
    requires i <= |lines| && NamedAt(lines, i, name).None? && Ascending(lines, i)
    requires i <= PlaceAt(lines, i, name) <= |lines| && EntryOf(l).Some? && EntryOf(l).value.0 == name
    requires var made := Insert(lines, PlaceAt(lines, i, name), l);
             i <= j < k < |made| && InRun(made, i, k) && EntryOf(made[j]).Some? && EntryOf(made[k]).Some?
    ensures var made := Insert(lines, PlaceAt(lines, i, name), l);
            Less(EntryOf(made[j]).value.0, EntryOf(made[k]).value.0)
  {
    hide *;
    var p := PlaceAt(lines, i, name);
    InsertIs(lines, p, l);
    RunWithout(lines, p, l, i, k);
    if k < p {
      AscendingPair(lines, i, j, k);
    } else if k == p {
      PlaceIsBetween(lines, i, name, j);
    } else if j < p {
      AscendingPair(lines, i, j, k - 1);
    } else if j == p {
      PlaceIsBetween(lines, i, name, k - 1);
    } else {
      AscendingPair(lines, i, j - 1, k - 1);
    }
  }

  lemma InsertAscending(lines: seq<string>, i: nat, name: string, value: string)
    requires i <= |lines| && NamedAt(lines, i, name).None? && Ascending(lines, i) && IsName(name) && IsValue(value)
    requires PlaceAt(lines, i, name) <= |lines|
    ensures Ascending(Insert(lines, PlaceAt(lines, i, name), EntryText(name, value)), i)
  {
    var p, l := PlaceAt(lines, i, name), EntryText(name, value);
    var made := Insert(lines, p, l);
    EntryReads(name, value);
    PlaceBound(lines, i, name);
    hide IsEntry;
    hide EntryOf;
    hide EntryText;
    hide NamedAt;
    hide PlaceAt;
    hide Insert;
    forall j, k | i <= j < k && InRun(made, i, k) && EntryOf(made[j]).Some? && EntryOf(made[k]).Some?
      ensures Less(EntryOf(made[j]).value.0, EntryOf(made[k]).value.0)
    {
      InsertedPair(lines, i, name, l, j, k);
    }
  }

  lemma ReplaceAscending(lines: seq<string>, i: nat, at: nat, l: string)
    requires Ascending(lines, i) && at < |lines| && EntryOf(lines[at]).Some? && EntryOf(l).Some?
    requires EntryOf(l).value.0 == EntryOf(lines[at]).value.0 && IsEntry(lines[at])
    ensures Ascending(lines[at := l], i)
  {
    hide EntryOf;
    hide IsEntry;
    var made := lines[at := l];
    forall j, k | i <= j < k && InRun(made, i, k) && EntryOf(made[j]).Some? && EntryOf(made[k]).Some?
      ensures Less(EntryOf(made[j]).value.0, EntryOf(made[k]).value.0)
    {
      assert InRun(lines, i, k) by {
        assert forall m :: i <= m <= k && m != at ==> made[m] == lines[m];
      }
    }
  }

  /** All named entries from `i` on come after `name`. */
  ghost predicate AllAfter(lines: seq<string>, i: nat, name: string) {
    forall k :: InRun(lines, i, k) && EntryOf(lines[k]).Some? ==> Less(name, EntryOf(lines[k]).value.0)
  }

  /** Taking an entry out of an ascending section leaves it ascending. */
  lemma WithoutAscending(lines: seq<string>, i: nat, p: nat, l: string)
    requires i <= p <= |lines| && IsEntry(l) && Ascending(Insert(lines, p, l), i)
    ensures Ascending(lines, i)
  {
    hide EntryOf;
    hide IsEntry;
    hide Insert;
    hide Less;
    var made := Insert(lines, p, l);
    InsertIs(lines, p, l);
    forall j, k | i <= j < k && InRun(lines, i, k) && EntryOf(lines[j]).Some? && EntryOf(lines[k]).Some?
      ensures Less(EntryOf(lines[j]).value.0, EntryOf(lines[k]).value.0)
    {
      var j', k' := if j < p then j else j + 1, if k < p then k else k + 1;
      assert made[j'] == lines[j] && made[k'] == lines[k];
      RunWith(lines, p, l, i, k);
    }
  }

  /** A run of the lines is, with an entry inserted, a run still. */
  lemma RunWith(lines: seq<string>, p: nat, l: string, i: nat, k: nat)
    requires i <= p <= |lines| && IsEntry(l) && InRun(lines, i, k)
    ensures InRun(Insert(lines, p, l), i, if k < p then k else k + 1)
  {
    hide IsEntry;
    hide Insert;
    InsertIs(lines, p, l);
    var made := Insert(lines, p, l);
    forall m | i <= m <= (if k < p then k else k + 1) ensures IsEntry(made[m]) {
      assert m < p ==> IsEntry(lines[m]);
      assert m > p ==> IsEntry(lines[m - 1]);
    }
  }

  /** An entry put before all others: the section then ascends exactly when the others did and come after it. */
  lemma FirstAscending(lines: seq<string>, i: nat, l: string)
    requires i <= |lines| && IsEntry(l) && EntryOf(l).Some?
    ensures Ascending(Insert(lines, i, l), i) <==> Ascending(lines, i) && AllAfter(lines, i, EntryOf(l).value.0)
  {
    hide EntryOf;
    hide IsEntry;
    hide Insert;
    hide Less;
    var made := Insert(lines, i, l);
    InsertIs(lines, i, l);
    if Ascending(made, i) {
      WithoutAscending(lines, i, i, l);
      forall k | InRun(lines, i, k) && EntryOf(lines[k]).Some?
        ensures Less(EntryOf(l).value.0, EntryOf(lines[k]).value.0) {
        RunWith(lines, i, l, i, k);
        assert made[k + 1] == lines[k];
      }
    }
    if Ascending(lines, i) && AllAfter(lines, i, EntryOf(l).value.0) {
      forall j, k | i <= j < k && InRun(made, i, k) && EntryOf(made[j]).Some? && EntryOf(made[k]).Some?
        ensures Less(EntryOf(made[j]).value.0, EntryOf(made[k]).value.0)
      {
        RunWithout(lines, i, l, i, k);
      }
    }
  }

  /** What stands before a section does not matter. */
  lemma SuffixAscending(lines: seq<string>, made: seq<string>, i: nat, name: string)
    requires |made| == |lines| && forall m :: i <= m < |lines| ==> made[m] == lines[m]
    ensures Ascending(lines, i) ==> Ascending(made, i)
    ensures AllAfter(lines, i, name) ==> AllAfter(made, i, name)
  {
    hide EntryOf;
    hide IsEntry;
    hide Less;
    forall k | InRun(made, i, k) ensures InRun(lines, i, k) {
      assert forall m :: i <= m <= k ==> made[m] == lines[m];
    }
  }

  /**
   * After an edit the section ascends exactly when it did before and, where its header said it was empty, every entry
   * that stands behind it all the same comes after the new one.
   */
  lemma SetKeepsOrder(lines: seq<string>, name: string, s: Section, value: string)
    requires IsValue(value) && SetLines(lines, name, s, value).Done?
    ensures HeadOf(lines, s).Some? && HeadOf(lines, s).value < |lines|
    ensures var r, head := SetLines(lines, name, s, value).lines, HeadOf(lines, s).value;
            && HeadOf(r, s) == HeadOf(lines, s)
            && (Ascending(r, head + 1) <==>
                  Ascending(lines, head + 1) && (IsEmptyList(lines[head]) ==> AllAfter(lines, head + 1, name)))
  {
    hide *;
    SetCases(lines, name, s, value);
    WrittenReads(name, value);
    var head, l := HeadOf(lines, s).value, EntryText(name, value);
    NamesMeans(l, name, name);
    LookupAt(lines, s, name);
    NamedSection(lines, s, name);
    if IsEmptyList(lines[head]) {
      var open := lines[head := HeadText(s)];
      Opened(lines, s, s, name);
      InsertReads(open, s, head + 1, name, value);
      FirstAscending(open, head + 1, l);
      SuffixAscending(lines, open, head + 1, name);
      SuffixAscending(open, lines, head + 1, name);
    } else if NamedAt(lines, head + 1, name).Some? {
      var j := NamedAt(lines, head + 1, name).value;
      SectionIs(lines, s, j);
      ReplaceReads(lines, s, j, name, value);
      NamesMeans(lines[j], name, name);
      if Ascending(lines, head + 1) {
        ReplaceAscending(lines, head + 1, j, l);
      }
      if Ascending(lines[j := l], head + 1) {
        ReplaceAscending(lines[j := l], head + 1, j, lines[j]);
        assert lines[j := l][j := lines[j]] == lines;
      }
    } else {
      var place := PlaceAt(lines, head + 1, name);
      SectionIs(lines, s, place);
      InsertReads(lines, s, place, name, value);
      if Ascending(lines, head + 1) {
        InsertAscending(lines, head + 1, name, value);
      }
      if Ascending(Insert(lines, place, l), head + 1) {
        WithoutAscending(lines, head + 1, place, l);
      }
    }
  }

  const STRAY := [SAVED, "    m_Floats: []", "    - _A: 1"]

  /** An edit that breaks the order: a smaller name stands behind a header that says its list is empty. */
  lemma SetBreaksOrder()
    ensures var r := SetLines(STRAY, "_B", Floats, "2");
            r.Done? && HeadOf(STRAY, Floats) == Some(1) && Ascending(STRAY, 2) && !Ascending(r.lines, 2)
  {
    StrayIs();
    hide *;
    SetKeepsOrder(STRAY, "_B", Floats, "2");
  }

  lemma StrayIs()
    ensures HeadOf(STRAY, Floats) == Some(1) && SetLines(STRAY, "_B", Floats, "2").Done? && IsValue("2")
    ensures IsEmptyList(STRAY[1]) && Ascending(STRAY, 2) && !AllAfter(STRAY, 2, "_B")
  {
    hide IsEmptyList;
    hide EntryOf;
    EmptyHeader();
    var h := STRAY[1];
    assert IsHead(h, Floats) by {
      assert HeadText(Floats) == "    m_Floats:" && h[..13] == HeadText(Floats);
    }
    assert h[..3] == "   ";
    assert HeadOf(STRAY, Floats) == Some(1);
    assert STRAY[2] == EntryText("_A", "1");
    EntryReads("_A", "1");
    assert InRun(STRAY, 2, 2) && EntryOf(STRAY[2]).value.0 == "_A";
    assert !Less("_B", "_A") by {
      assert "_B"[1..] == "B" && "_A"[1..] == "A";
    }
  }

  lemma EmptyHeader()
    ensures IsEmptyList("    m_Floats: []")
  {
    var l := "    m_Floats: []";
    assert TrimEnd(l) == l && l[|l| - 2..] == "[]";
    var a := l[..|l| - 2];
    assert a == "    m_Floats: " && a[..|a| - 1] == "    m_Floats:";
    assert TrimEnd("    m_Floats:") == "    m_Floats:";
  }

  // The text.

  method FindHead(lines: seq<string>, saved: nat, s: Section) returns (head: Option<nat>)
    ensures head == HeadAt(lines, saved + 1, s)
  {
    hide IsDeep;
    hide IsHead;
    var i := saved + 1;
    while i < |lines| && IsDeep(lines[i])
      invariant HeadAt(lines, saved + 1, s) == HeadAt(lines, i, s)
    {
      if IsHead(lines[i], s) {
        return Some(i);
      }
      i := i + 1;
    }
    return None;
  }

  method SetInSection(lines: seq<string>, head: nat, name: string, value: string) returns (r: Result)
    requires head < |lines|
    ensures r == SetIn(lines, head, name, value)
  {
    hide IsEntry;
    hide EntryOf;
    hide Less;
    hide Trim;
    NamedBound(lines, head + 1, name);
    PlaceBound(lines, head + 1, name);
    var i, insertAt := head + 1, None;
    while i < |lines| && IsEntry(lines[i])
      invariant head < i <= |lines|
      invariant NamedAt(lines, head + 1, name) == NamedAt(lines, i, name)
      invariant PlaceAt(lines, head + 1, name) == if insertAt.Some? then insertAt.value else PlaceAt(lines, i, name)
    {
      var m := EntryOf(lines[i]);
      if m.Some? {
        if m.value.0 == name {
          return Done(lines[i := EntryText(name, value)], Some(Trim(m.value.1)));
        }
        if insertAt.None? && Less(name, m.value.0) {
          insertAt := Some(i);
        }
      }
      i := i + 1;
    }
    var at := if insertAt.Some? then insertAt.value else i;
    return Done(lines[..at] + [EntryText(name, value)] + lines[at..], None);
  }

  /** The edited text, or none when the text is no material, the section is missing or the name is no property's. */
  function SetText(text: string, name: string, s: Section, value: string): Option<string> {
    var r := SetLines(Split(text), name, s, value);
    if r.Done? && r.lines != [] then Some(Join(r.lines, Eol(text))) else None
  }

  method SetMatValue(text: string, name: string, s: Section, value: string) returns (out: Option<string>, r: Result)
    ensures r == SetLines(Split(text), name, s, value)
    ensures out == SetText(text, name, s, value) && (out.Some? <==> r.Done?)
  {
    hide IsEmptyList;
    hide SetIn;
    hide Split;
    hide Join;
    hide Eol;
    hide IsName;
    var eol, lines := Eol(text), Split(text);
    HeadOfBound(lines, s);
    SetNotEmpty(lines, name, s, value);
    hide SavedAt;
    hide HeadAt;
    if !IsName(name) {
      return None, BadName;
    }
    var saved := SavedAt(lines, 0);
    if saved.None? {
      return None, NotMaterial;
    }
    var head := FindHead(lines, saved.value, s);
    if head.None? {
      return None, NoSection;
    }
    if IsEmptyList(lines[head.value]) {
      var made := lines[head.value := HeadText(s)];
      made := made[..head.value + 1] + [EntryText(name, value)] + made[head.value + 1..];
      r := Done(made, None);
    } else {
      r := SetInSection(lines, head.value, name, value);
    }
    out := Some(Join(r.lines, eol));
  }

  lemma SetNotEmpty(lines: seq<string>, name: string, s: Section, value: string)
    ensures SetLines(lines, name, s, value).Done? ==> |SetLines(lines, name, s, value).lines| >= |lines| >= 2
  {
    hide *;
    if SetLines(lines, name, s, value).Done? {
      HeadOfBound(lines, s);
      SetCases(lines, name, s, value);
      var head, l := HeadOf(lines, s).value, EntryText(name, value);
      if IsEmptyList(lines[head]) {
        InsertIs(lines[head := HeadText(s)], head + 1, l);
      } else if NamedAt(lines, head + 1, name).None? {
        InsertIs(lines, PlaceAt(lines, head + 1, name), l);
      }
    }
  }

  lemma WrittenIsClean(name: string, value: string, s: Section)
    requires IsName(name) && OneLined(value)
    ensures Clean(EntryText(name, value)) && Clean(HeadText(s))
  {
    var l := EntryText(name, value);
    forall i | 0 <= i < |l| ensures l[i] != '\n' && l[i] != '\r' {
      if i >= |ENTRY| + |name| + 2 {
        assert l[i] == value[i - |ENTRY| - |name| - 2];
      } else if |ENTRY| <= i < |ENTRY| + |name| {
        assert l[i] == name[i - |ENTRY|] && IsNameChar(l[i]);
      }
    }
  }

  /**
   * On text with one line ending the edit is the edit of its lines: the ending stays, and the text splits into those
   * lines.
   */
  lemma SetKeepsEndings(lines: seq<string>, eol: string, name: string, s: Section, value: string)
    requires lines != [] && AllClean(lines) && (eol == LF || eol == CRLF)
    requires IsValue(value) && SetLines(lines, name, s, value).Done?
    ensures var r := SetLines(lines, name, s, value).lines;
            && r != [] && SetText(Join(lines, eol), name, s, value) == Some(Join(r, eol))
            && Split(Join(r, eol)) == r && Split(Join(lines, eol)) == lines
  {
    hide IsEmptyList;
    hide Split;
    hide Join;
    hide Eol;
    hide EntryText;
    hide HeadText;
    hide SetLines;
    SetNotEmpty(lines, name, s, value);
    SplitOfJoin(lines, eol);
    EolOfJoin(lines, eol);
    SetCases(lines, name, s, value);
    WrittenIsClean(name, value, s);
    var r := SetLines(lines, name, s, value).lines;
    assert AllClean(r);
    SplitOfJoin(r, eol);
  }
}
