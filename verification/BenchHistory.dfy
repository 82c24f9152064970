/**
 * The tickets of a bench queue's history (`machine/benchHours.ts`, tickets): events sorted by time, folded into a book
 * of tickets.
 */
module BenchHistory {
  import opened Prelude
  import opened Sorting

  datatype Mode = NoMode | Shared | Exclusive

  datatype Kind = Take | Grant | End

  /** A history line that parsed; an absent text is empty, `waited` is in ms. */
  datatype Event = Event(
    ts: int, kind: Kind, id: string, mode: Mode, what: string, session: string, sandbox: string,
    requests: seq<string>, waited: Option<int>)

  datatype Ticket = Ticket(
    mode: Mode, what: string, session: string, sandbox: string, requests: seq<string>,
    take: Option<int>, grant: Option<int>, end: Option<int>, waited: Option<int>)

  const BLANK := Ticket(NoMode, "", "", "", [], None, None, None, None)

  function Stamp(e: Event): int { e.ts }

  /** A field keeps the first value it was given. */
  function Once<T>(was: Option<T>, next: Option<T>): Option<T> { if was.Some? then was else next }

  function Noted(t: Ticket, e: Event): Ticket {
    var u := t.(
      mode := if t.mode.NoMode? then e.mode else t.mode,
      what := if t.what == "" then e.what else t.what,
      session := if t.session == "" then e.session else t.session,
      sandbox := if t.sandbox == "" then e.sandbox else t.sandbox,
      requests := if t.requests == [] then e.requests else t.requests);
    match e.kind
    case Take => u.(take := Once(u.take, Some(e.ts)))
    case Grant => u.(grant := Once(u.grant, Some(e.ts)), waited := Once(u.waited, e.waited))
    case End => u.(end := Once(u.end, Some(e.ts)))
  }

  function TicketIn(book: map<string, Ticket>, id: string): Ticket { if id in book then book[id] else BLANK }

  function Book(evs: seq<Event>): map<string, Ticket> {
    if evs == [] then map[]
    else
      var e, book := evs[|evs| - 1], Book(evs[..|evs| - 1]);
      book[e.id := Noted(TicketIn(book, e.id), e)]
  }

  /** The book of a history, and its tickets in the order they were first seen. */
  method Tickets(evs: seq<Event>) returns (ids: seq<string>, book: map<string, Ticket>)
    ensures book == Book(Sort(evs, Stamp))
    ensures forall id :: id in ids <==> id in book
    ensures forall i, j :: 0 <= i < j < |ids| ==> ids[i] != ids[j]
  {
    hide Noted;
    hide Sort;
    var sorted := Sort(evs, Stamp);
    ids, book := [], map[];
    for i := 0 to |sorted|
      invariant book == Book(sorted[..i])
      invariant forall id :: id in ids <==> id in book
      invariant forall i, j :: 0 <= i < j < |ids| ==> ids[i] != ids[j]
    {
      var e := sorted[i];
      assert sorted[..i + 1][..i] == sorted[..i];
      if e.id !in book {
        ids, book := ids + [e.id], book[e.id := BLANK];
      }
      book := book[e.id := Noted(book[e.id], e)];
      assert book == Book(sorted[..i + 1]);
    }
    assert sorted[..|sorted|] == sorted;
  }

  /** The moment a ticket's book holds for one kind of event. */
  function Moment(t: Ticket, kind: Kind): Option<int> {
    match kind
    case Take => t.take
    case Grant => t.grant
    case End => t.end
  }

  ghost predicate Among(evs: seq<Event>, id: string, kind: Kind, ts: int) {
    exists e :: e in evs && e.id == id && e.kind == kind && e.ts == ts
  }

  /** The earliest event of this kind for this ticket, whatever order the lines came in. */
  ghost predicate IsEarliest(evs: seq<Event>, id: string, kind: Kind, m: Option<int>) {
    match m
    case None => forall e :: e in evs ==> !(e.id == id && e.kind == kind)
    case Some(ts) => Among(evs, id, kind, ts) && forall e :: e in evs && e.id == id && e.kind == kind ==> ts <= e.ts
  }

  lemma BookedMoment(evs: seq<Event>, id: string, kind: Kind)
    requires evs != []
    ensures var e := evs[|evs| - 1];
            var was := Moment(TicketIn(Book(evs[..|evs| - 1]), id), kind);
            Moment(TicketIn(Book(evs), id), kind) == if e.id == id && e.kind == kind then Once(was, Some(e.ts)) else was
  {
  }

  lemma EarliestGrows(front: seq<Event>, e: Event, id: string, kind: Kind, was: Option<int>)
    requires IsEarliest(front, id, kind, was)
    requires forall f :: f in front ==> f.ts <= e.ts
    ensures IsEarliest(front + [e], id, kind, if e.id == id && e.kind == kind then Once(was, Some(e.ts)) else was)
  {
    if was.Some? {
      var f :| f in front && f.id == id && f.kind == kind && f.ts == was.value;
      assert f in front + [e];
    } else if e.id == id && e.kind == kind {
      assert e in front + [e];
    }
  }

  lemma {:induction false} BookKeepsEarliest(evs: seq<Event>, id: string, kind: Kind)
    requires Sorted(evs, Stamp)
    ensures IsEarliest(evs, id, kind, Moment(TicketIn(Book(evs), id), kind))
  {
    if evs != [] {
      hide Book;
      hide IsEarliest;
      SortedFront(evs, Stamp);
      var front, e := evs[..|evs| - 1], evs[|evs| - 1];
      BookKeepsEarliest(front, id, kind);
      assert evs == front + [e];
      BookedMoment(evs, id, kind);
      forall f | f in front ensures f.ts <= e.ts {
        var i :| 0 <= i < |front| && front[i] == f;
        assert Stamp(evs[i]) <= Stamp(evs[|evs| - 1]);
      }
      EarliestGrows(front, e, id, kind, Moment(TicketIn(Book(front), id), kind));
    }
  }

  /** Each ticket's take, grant and end are the earliest its lines tell, in whatever order the files were read. */
  lemma FirstsAreEarliest(evs: seq<Event>, id: string, kind: Kind)
    ensures IsEarliest(evs, id, kind, Moment(TicketIn(Book(Sort(evs, Stamp)), id), kind))
  {
    SortSorts(evs, Stamp);
    var sorted := Sort(evs, Stamp);
    BookKeepsEarliest(sorted, id, kind);
    SameElements(evs, Stamp);
    var m := Moment(TicketIn(Book(sorted), id), kind);
    if m.Some? {
      var e :| e in sorted && e.id == id && e.kind == kind && e.ts == m.value;
      assert e in evs;
    }
  }

  lemma EarliestIsOne(evs: seq<Event>, other: seq<Event>, id: string, kind: Kind, m: Option<int>, n: Option<int>)
    requires forall e :: e in evs <==> e in other
    requires IsEarliest(evs, id, kind, m) && IsEarliest(other, id, kind, n)
    ensures m == n
  {
    if m.Some? {
      var e :| e in evs && e.id == id && e.kind == kind && e.ts == m.value;
      assert e in other;
    }
    if n.Some? {
      var e :| e in other && e.id == id && e.kind == kind && e.ts == n.value;
      assert e in evs;
    }
  }

  /** A rotated or merged pair of files gives the same moments as the history in order. */
  lemma MomentsIgnoreLineOrder(evs: seq<Event>, other: seq<Event>, id: string, kind: Kind)
    requires multiset(evs) == multiset(other)
    ensures Moment(TicketIn(Book(Sort(evs, Stamp)), id), kind) == Moment(TicketIn(Book(Sort(other, Stamp)), id), kind)
  {
    hide Book;
    hide IsEarliest;
    FirstsAreEarliest(evs, id, kind);
    FirstsAreEarliest(other, id, kind);
    forall e ensures e in evs <==> e in other {
      assert e in multiset(evs) <==> e in multiset(other);
    }
    var m := Moment(TicketIn(Book(Sort(evs, Stamp)), id), kind);
    var n := Moment(TicketIn(Book(Sort(other, Stamp)), id), kind);
    EarliestIsOne(evs, other, id, kind, m, n);
  }

  // What a ticket's lines tell, field by field.

  datatype Field = ItsMode | ItsWhat | ItsSession | ItsSandbox | ItsRequests | ItsWait | ItsTake | ItsGrant | ItsEnd

  /** The line tells this of its ticket. */
  predicate Tells(e: Event, f: Field) {
    match f
    case ItsMode => e.mode != NoMode
    case ItsWhat => e.what != ""
    case ItsSession => e.session != ""
    case ItsSandbox => e.sandbox != ""
    case ItsRequests => e.requests != []
    case ItsWait => e.kind == Grant && e.waited.Some?
    case ItsTake => e.kind == Take
    case ItsGrant => e.kind == Grant
    case ItsEnd => e.kind == End
  }

  /** The earliest line of the ticket that tells it: by time and, at one time, the first of them. */
  function Telling(evs: seq<Event>, id: string, f: Field): Option<Event> {
    Earliest(evs, Stamp, (e: Event) => e.id == id && Tells(e, f))
  }

  /** The ticket's field is what this line tells of it, blank where there is none. */
  predicate FieldIs(t: Ticket, f: Field, line: Option<Event>) {
    match f
    case ItsMode => t.mode == if line.Some? then line.value.mode else NoMode
    case ItsWhat => t.what == if line.Some? then line.value.what else ""
    case ItsSession => t.session == if line.Some? then line.value.session else ""
    case ItsSandbox => t.sandbox == if line.Some? then line.value.sandbox else ""
    case ItsRequests => t.requests == if line.Some? then line.value.requests else []
    case ItsWait => t.waited == if line.Some? then line.value.waited else None
    case ItsTake => t.take == if line.Some? then Some(line.value.ts) else None
    case ItsGrant => t.grant == if line.Some? then Some(line.value.ts) else None
    case ItsEnd => t.end == if line.Some? then Some(line.value.ts) else None
  }

  function FirstTelling(sorted: seq<Event>, id: string, f: Field): Option<Event> {
    FirstSuch(sorted, (e: Event) => e.id == id && Tells(e, f))
  }

  lemma TellingGrows(sorted: seq<Event>, e: Event, id: string, f: Field)
    ensures FirstTelling(sorted + [e], id, f) ==
            if FirstTelling(sorted, id, f).Some? then FirstTelling(sorted, id, f)
            else if e.id == id && Tells(e, f) then Some(e) else None
    ensures FirstTelling(sorted, id, f).Some? ==> Tells(FirstTelling(sorted, id, f).value, f)
  {
    FirstAppend(sorted, e, (x: Event) => x.id == id && Tells(x, f));
  }

  lemma {:induction false} BookTells(sorted: seq<Event>, id: string, f: Field)
    ensures FieldIs(TicketIn(Book(sorted), id), f, FirstTelling(sorted, id, f))
  {
    hide FirstTelling;
    hide Noted;
    hide FieldIs;
    hide Tells;
    if sorted == [] {
      BlankTells(id, f);
    } else {
      var front, e := sorted[..|sorted| - 1], sorted[|sorted| - 1];
      assert sorted == front + [e];
      BookTells(front, id, f);
      TellingGrows(front, e, id, f);
      if e.id == id {
        NotedTells(TicketIn(Book(front), id), e, f, FirstTelling(front, id, f));
      }
    }
  }

  lemma BlankTells(id: string, f: Field)
    ensures FieldIs(BLANK, f, FirstTelling([], id, f))
  {
  }

  /** One line more: it tells what no line before it told. */
  lemma NotedTells(t: Ticket, e: Event, f: Field, line: Option<Event>)
    requires FieldIs(t, f, line) && (line.Some? ==> Tells(line.value, f))
    ensures FieldIs(Noted(t, e), f, if line.Some? then line else if Tells(e, f) then Some(e) else None)
  {
  }

  /** A ticket of the book: every field is its earliest line's that tells it, and blank exactly when no line does. */
  lemma TicketTells(evs: seq<Event>, id: string, f: Field)
    ensures FieldIs(TicketIn(Book(Sort(evs, Stamp)), id), f, Telling(evs, id, f))
  {
    hide FieldIs;
    BookTells(Sort(evs, Stamp), id, f);
    FirstOfSorted(evs, Stamp, (e: Event) => e.id == id && Tells(e, f));
  }
}
