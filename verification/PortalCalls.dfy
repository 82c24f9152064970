/**
 * Calls to the portal held across link outages (`machine/portalCalls.ts`). The link's answers to `open()` are an input:
 * `open(k)` is the answer to the k-th question of one operation.
 */
module PortalCalls {
  import opened Prelude

  datatype Msg = Msg(id: nat, tool: string, args: string)

  const HELD_TOOLS := {"blocked_on", "waiting_on_person", "wake_me", "cancel_wake"}

  predicate IsHeld(m: Msg) { m.tool in HELD_TOOLS }

  datatype Pending = Pending(msg: Msg, held: bool, sent: bool)

  datatype Outcome = Answered(ok: bool, text: string) | Unreachable | Dropped | TimedOut

  datatype Settlement = Settlement(id: nat, outcome: Outcome)

  /** What an operation leaves pending, puts on the wire, and settles. */
  datatype Effect = Effect(pending: seq<Pending>, wire: seq<Msg>, settled: seq<Settlement>)

  // What each operation does.

  function Send(p: seq<Pending>, open: nat -> bool, k: nat): Effect {
    if p == [] then Effect([], [], [])
    else if p[0].sent then
      var e := Send(p[1..], open, k);
      Effect([p[0]] + e.pending, e.wire, [])
    else if !open(k) then Effect(p, [], [])
    else
      var e := Send(p[1..], open, k + 1);
      Effect([p[0].(sent := true)] + e.pending, [p[0].msg] + e.wire, [])
  }

  lemma SendUnfolds(p: seq<Pending>, open: nat -> bool, k: nat)
    ensures Send(p, open, k) ==
            if p == [] then Effect([], [], [])
            else if !p[0].sent && !open(k) then Effect(p, [], [])
            else
              var e := Send(p[1..], open, if p[0].sent then k else k + 1);
              Effect([p[0].(sent := true)] + e.pending, (if p[0].sent then [] else [p[0].msg]) + e.wire, [])
  {
  }

  /** The sending loop's turn: `done` are the calls it has passed, `wire` what it sent of them. */
  ghost predicate Midway(p: seq<Pending>, open: nat -> bool, from: nat, done: seq<Pending>, wire: seq<Msg>, k: nat) {
    && |done| <= |p|
    && var rest := Send(p[|done|..], open, k);
       Send(p, open, from) == Effect(done + rest.pending, wire + rest.wire, [])
  }

  lemma MidwayStarts(p: seq<Pending>, open: nat -> bool, from: nat)
    ensures Midway(p, open, from, [], [], from)
  {
    assert p[0..] == p;
    var all := Send(p, open, from);
    assert all.settled == [];
    hide Send;
    assert [] + all.pending == all.pending && [] + all.wire == all.wire;
  }

  lemma MidwaySteps(p: seq<Pending>, open: nat -> bool, from: nat, done: seq<Pending>, wire: seq<Msg>, k: nat)
    requires Midway(p, open, from, done, wire, k) && |done| < |p|
    ensures var next := p[|done|];
            if next.sent then Midway(p, open, from, done + [next], wire, k)
            else if open(k) then Midway(p, open, from, done + [next.(sent := true)], wire + [next.msg], k + 1)
            else Send(p, open, from) == Effect(done + p[|done|..], wire, [])
  {
    var rest, next := p[|done|..], p[|done|];
    SendUnfolds(rest, open, k);
    assert rest[1..] == p[|done| + 1..];
    hide Send;
    var e := Send(rest[1..], open, if next.sent then k else k + 1);
    assert done + ([next.(sent := true)] + e.pending) == done + [next.(sent := true)] + e.pending;
    assert wire + ([next.msg] + e.wire) == wire + [next.msg] + e.wire;
    assert next.sent ==> next.(sent := true) == next;
    assert wire + ([] + e.wire) == wire + e.wire;
    assert wire + [] == wire;
  }

  lemma MidwayEnds(p: seq<Pending>, open: nat -> bool, from: nat, done: seq<Pending>, wire: seq<Msg>, k: nat)
    requires Midway(p, open, from, done, wire, k) && |done| == |p|
    ensures Send(p, open, from) == Effect(done, wire, [])
  {
    assert p[|done|..] == [];
    assert done + [] == done && wire + [] == wire;
  }

  function Calls(p: seq<Pending>, m: Msg, open: nat -> bool): Effect {
    var held := IsHeld(m);
    if !held && !open(0) then Effect(p, [], [Settlement(m.id, Unreachable)])
    else
      var k := if held then 0 else 1;
      var q := p + [Pending(m, held, false)];
      if open(k) then Send(q, open, k + 1) else Effect(q, [], [])
  }

  function Drop(p: seq<Pending>): Effect {
    if p == [] then Effect([], [], [])
    else
      var e, last := Drop(p[..|p| - 1]), p[|p| - 1];
      if last.held then e.(pending := e.pending + [last.(sent := false)])
      else if last.sent then e.(settled := e.settled + [Settlement(last.msg.id, Dropped)])
      else e.(pending := e.pending + [last])
  }

  function Without(p: seq<Pending>, id: nat): seq<Pending> {
    if p == [] then [] else Without(p[..|p| - 1], id) + if p[|p| - 1].msg.id == id then [] else [p[|p| - 1]]
  }

  predicate Has(p: seq<Pending>, id: nat) { exists a :: a in p && a.msg.id == id }

  function Settle(p: seq<Pending>, id: nat, outcome: Outcome): Effect {
    if Has(p, id) then Effect(Without(p, id), [], [Settlement(id, outcome)]) else Effect(p, [], [])
  }

  /** The pending calls, in the order they were made. */
  class PortalCalls {
    var pending: seq<Pending>

    constructor ()
      ensures pending == []
    {
      pending := [];
    }

    method SendUnsent(open: nat -> bool, from: nat) returns (wire: seq<Msg>)
      modifies this
      ensures Effect(pending, wire, []) == Send(old(pending), open, from)
    {
      hide Midway;
      var i, k := 0, from;
      ghost var before, done := pending, [];
      wire := [];
      MidwayStarts(before, open, from);
      while i < |pending|
        invariant |done| == i <= |before| && pending == done + before[i..]
        invariant Midway(before, open, from, done, wire, k)
      {
        var p := pending[i];
        assert p == before[i];
        MidwaySteps(before, open, from, done, wire, k);
        if !p.sent {
          if !open(k) {
            return;
          }
          pending := pending[i := p.(sent := true)];
          wire := wire + [p.msg];
          k := k + 1;
        }
        done := done + [p.(sent := true)];
        i := i + 1;
      }
      MidwayEnds(before, open, from, done, wire, k);
    }

    method Call(m: Msg, open: nat -> bool) returns (wire: seq<Msg>, settled: seq<Settlement>)
      modifies this
      ensures Effect(pending, wire, settled) == Calls(old(pending), m, open)
    {
      var held := m.tool in HELD_TOOLS;
      wire, settled := [], [];
      var k := 0;
      if !held {
        if !open(0) {
          settled := [Settlement(m.id, Unreachable)];
          return;
        }
        k := 1;
      }
      pending := pending + [Pending(m, held, false)];
      if open(k) {
        wire := SendUnsent(open, k + 1);
      }
    }

    method LinkUp(open: nat -> bool) returns (wire: seq<Msg>)
      modifies this
      ensures Effect(pending, wire, []) == Send(old(pending), open, 0)
    {
      wire := SendUnsent(open, 0);
    }

    method LinkDown() returns (settled: seq<Settlement>)
      modifies this
      ensures Effect(pending, [], settled) == Drop(old(pending))
    {
      var left := [];
      settled := [];
      for i := 0 to |pending|
        invariant pending == old(pending)
        invariant Effect(left, [], settled) == Drop(pending[..i])
      {
        var p := pending[i];
        assert pending[..i + 1][..i] == pending[..i];
        if p.held {
          left := left + [p.(sent := false)];
        } else if p.sent {
          settled := settled + [Settlement(p.msg.id, Dropped)];
        } else {
          left := left + [p];
        }
      }
      assert pending[..|pending|] == pending;
      pending := left;
    }

    /** The end of a call, by an answer or by its timer. */
    method Finish(id: nat, outcome: Outcome) returns (settled: seq<Settlement>)
      modifies this
      ensures Effect(pending, [], settled) == Settle(old(pending), id, outcome)
    {
      settled := [];
      if Has(pending, id) {
        pending := Without(pending, id);
        settled := [Settlement(id, outcome)];
      }
    }
  }

  // Runs.

  datatype Event =
    | Call(tool: string, args: string, open: nat -> bool)
    | Up(open: nat -> bool)
    | Down
    | Answer(id: nat, ok: bool, text: string)
    | Timer(id: nat)

  /**
   * `made` are the calls ever made; the n-th has the id n. `wire` are the calls the present link has carried, `links`
   * what each earlier link carried: a link lasts until its `Down`.
   */
  datatype World = World(made: seq<Msg>, pending: seq<Pending>, wire: seq<Msg>, links: seq<seq<Msg>>,
    settled: seq<Settlement>)

  function Happen(w: World, e: Event): World {
    match e
    case Call(tool, args, open) =>
      var m := Msg(|w.made|, tool, args);
      var x := Calls(w.pending, m, open);
      World(w.made + [m], x.pending, w.wire + x.wire, w.links, w.settled + x.settled)
    case Up(open) =>
      var x := Send(w.pending, open, 0);
      w.(pending := x.pending, wire := w.wire + x.wire)
    case Down =>
      var x := Drop(w.pending);
      w.(pending := x.pending, wire := [], links := w.links + [w.wire], settled := w.settled + x.settled)
    case Answer(id, ok, text) =>
      var x := Settle(w.pending, id, Answered(ok, text));
      w.(pending := x.pending, settled := w.settled + x.settled)
    case Timer(id) =>
      var x := Settle(w.pending, id, TimedOut);
      w.(pending := x.pending, settled := w.settled + x.settled)
  }

  const FRESH := World([], [], [], [], [])

  function After(es: seq<Event>): World {
    if es == [] then FRESH else Happen(After(es[..|es| - 1]), es[|es| - 1])
  }

  ghost predicate Rising(ms: seq<Msg>) {
    forall i, j :: 0 <= i < j < |ms| ==> ms[i].id < ms[j].id
  }

  ghost predicate InOrder(p: seq<Pending>) {
    forall i, j :: 0 <= i < j < |p| ==> p[i].msg.id < p[j].msg.id
  }

  /** The pending calls in the order they were made, no call sent before one made earlier. */
  ghost predicate Queue(p: seq<Pending>) {
    && InOrder(p)
    && (forall a, b :: a in p && b in p && a.msg.id < b.msg.id && b.sent ==> a.sent)
    && (forall a :: a in p ==> a.held == IsHeld(a.msg))
  }

  /** What the present link has carried: in order, everything sent, and nothing at or past an unsent call. */
  ghost predicate Carries(p: seq<Pending>, wire: seq<Msg>) {
    && Rising(wire)
    && (forall a :: a in p && a.sent ==> a.msg in wire)
    && (forall a, m :: a in p && !a.sent && m in wire ==> m.id < a.msg.id)
  }

  lemma SomeCarries(p: seq<Pending>, q: seq<Pending>, wire: seq<Msg>)
    requires Queue(p) && Carries(p, wire) && InOrder(q) && forall a :: a in q ==> a in p
    ensures Queue(q) && Carries(q, wire)
  {
  }

  lemma AllLater(p: seq<Pending>)
    requires p != [] && InOrder(p)
    ensures InOrder(p[1..]) && forall a :: a in p[1..] ==> a in p && p[0].msg.id < a.msg.id
  {
    forall a | a in p[1..] ensures a in p && p[0].msg.id < a.msg.id {
      var i :| 0 <= i < |p[1..]| && p[1..][i] == a;
      assert p[i + 1] == a;
    }
  }

  lemma RisingAppend(wire: seq<Msg>, m: Msg)
    requires Rising(wire) && forall x :: x in wire ==> x.id < m.id
    ensures Rising(wire + [m])
  {
  }

  lemma CarriesTail(p: seq<Pending>, wire: seq<Msg>)
    requires p != [] && Queue(p) && Carries(p, wire)
    ensures Queue(p[1..]) && Carries(p[1..], if p[0].sent then wire else wire + [p[0].msg])
  {
    AllLater(p);
    SomeCarries(p, p[1..], wire);
    if !p[0].sent {
      assert p[0] in p;
      hide Queue;
      RisingAppend(wire, p[0].msg);
    }
  }

  lemma CarriesCons(first: Pending, rest: seq<Pending>, wire: seq<Msg>)
    requires Queue(rest) && Carries(rest, wire)
    requires first.sent && first.msg in wire && first.held == IsHeld(first.msg)
    requires forall i :: 0 <= i < |rest| ==> first.msg.id < rest[i].msg.id
    ensures Queue([first] + rest) && Carries([first] + rest, wire)
  {
    var all := [first] + rest;
    assert forall a :: a in all ==> a == first || a in rest;
    forall a, b | a in all && b in all && a.msg.id < b.msg.id && b.sent ensures a.sent {
    }
  }

  ghost predicate SameCalls(p: seq<Pending>, q: seq<Pending>) {
    |p| == |q| && forall i :: 0 <= i < |p| ==> p[i].msg == q[i].msg && p[i].held == q[i].held
  }

  /** Sending neither adds nor drops a call, and sends pending ones only. */
  lemma {:induction false} SendSame(p: seq<Pending>, open: nat -> bool, k: nat)
    ensures SameCalls(p, Send(p, open, k).pending) && Send(p, open, k).settled == []
    ensures forall m :: m in Send(p, open, k).wire ==> Has(p, m.id)
  {
    SendUnfolds(p, open, k);
    hide Send;
    if p != [] && (p[0].sent || open(k)) {
      var rest := p[1..];
      SendSame(rest, open, if p[0].sent then k else k + 1);
      var e, x := Send(rest, open, if p[0].sent then k else k + 1), Send(p, open, k);
      assert forall i :: 0 < i < |p| ==> p[i] == rest[i - 1];
      forall m | m in x.wire ensures Has(p, m.id) {
        if m in e.wire {
          var a :| a in rest && a.msg.id == m.id;
          assert a in p;
        } else {
          assert p[0] in p && p[0].msg.id == m.id;
        }
      }
    }
  }

  lemma CarriesStep(p: seq<Pending>, wire: seq<Msg>, left: seq<Pending>, sent: seq<Msg>)
    requires p != [] && Queue(p) && Carries(p, wire) && SameCalls(p[1..], left) && Queue(left)
    requires Carries(left, (if p[0].sent then wire else wire + [p[0].msg]) + sent)
    ensures Queue([p[0].(sent := true)] + left)
    ensures Carries([p[0].(sent := true)] + left, wire + ((if p[0].sent then [] else [p[0].msg]) + sent))
  {
    var on := if p[0].sent then wire else wire + [p[0].msg];
    assert p[0] in p && p[0].msg in on && p[0].held == IsHeld(p[0].msg);
    assert wire + ((if p[0].sent then [] else [p[0].msg]) + sent) == on + sent;
    forall i | 0 <= i < |left| ensures p[0].msg.id < left[i].msg.id {
      assert left[i].msg == p[1..][i].msg == p[i + 1].msg;
    }
    hide *;
    CarriesCons(p[0].(sent := true), left, on + sent);
  }

  /** Sending keeps the queue, and puts each call on the link once, in order. */
  lemma {:induction false} SendCarries(p: seq<Pending>, open: nat -> bool, k: nat, wire: seq<Msg>)
    requires Queue(p) && Carries(p, wire)
    ensures Queue(Send(p, open, k).pending) && Carries(Send(p, open, k).pending, wire + Send(p, open, k).wire)
  {
    hide *;
    SendUnfolds(p, open, k);
    if p == [] || (!p[0].sent && !open(k)) {
      assert wire + [] == wire;
    } else {
      var next := if p[0].sent then k else k + 1;
      CarriesTail(p, wire);
      SendCarries(p[1..], open, next, if p[0].sent then wire else wire + [p[0].msg]);
      SendSame(p[1..], open, next);
      var e := Send(p[1..], open, next);
      CarriesStep(p, wire, e.pending, e.wire);
    }
  }

  lemma {:induction false} WithoutOne(p: seq<Pending>, id: nat)
    requires InOrder(p)
    ensures InOrder(Without(p, id)) && forall a :: a in Without(p, id) <==> a in p && a.msg.id != id
  {
    if p != [] {
      var front, last := p[..|p| - 1], p[|p| - 1];
      assert p == front + [last];
      WithoutOne(front, id);
      LastLater(p);
      var w := Without(front, id);
      forall i | 0 <= i < |w| ensures w[i].msg.id < last.msg.id {
        assert w[i] in w;
      }
    }
  }

  lemma LastLater(p: seq<Pending>)
    requires p != [] && InOrder(p)
    ensures InOrder(p[..|p| - 1]) && forall a :: a in p[..|p| - 1] ==> a in p && a.msg.id < p[|p| - 1].msg.id
  {
  }

  predicate Lives(a: Pending) { a.held || !a.sent }

  function Reset(a: Pending): Pending { if a.held then a.(sent := false) else a }

  ghost predicate Dropping(p: seq<Pending>, left: seq<Pending>, settled: seq<Settlement>) {
    && (forall a :: a in left ==> !a.sent && exists b :: b in p && Lives(b) && a == Reset(b))
    && (forall b :: b in p && Lives(b) ==> Reset(b) in left)
    && (forall b :: b in p && !Lives(b) ==> Settlement(b.msg.id, Dropped) in settled)
    && (forall x :: x in settled ==> exists b :: b in p && !Lives(b) && x == Settlement(b.msg.id, Dropped))
  }

  ghost predicate RisingSettled(settled: seq<Settlement>) {
    forall i, j :: 0 <= i < j < |settled| ==> settled[i].id < settled[j].id
  }

  /** A dropped link settles exactly the sent calls that are not held; every other call stays, unsent. */
  lemma {:induction false} DropSettles(p: seq<Pending>)
    requires InOrder(p)
    ensures Dropping(p, Drop(p).pending, Drop(p).settled) && Drop(p).wire == []
    ensures InOrder(Drop(p).pending) && RisingSettled(Drop(p).settled)
  {
    hide *;
    if p == [] {
      NoneDropped();
    } else {
      var front, last := p[..|p| - 1], p[|p| - 1];
      assert p == front + [last];
      LastLater(p);
      DropSettles(front);
      DropUnfolds(p);
      DropBelow(front, Drop(front), last.msg.id);
      DroppingGrows(front, Drop(front), last);
      OrderGrows(Drop(front), last);
    }
  }

  lemma NoneDropped()
    ensures Drop([]) == Effect([], [], []) && Dropping([], [], []) && InOrder([]) && RisingSettled([])
  {
  }

  lemma OrderGrows(e: Effect, last: Pending)
    requires InOrder(e.pending) && RisingSettled(e.settled)
    requires forall i :: 0 <= i < |e.pending| ==> e.pending[i].msg.id < last.msg.id
    requires forall i :: 0 <= i < |e.settled| ==> e.settled[i].id < last.msg.id
    ensures InOrder(e.pending + if Lives(last) then [Reset(last)] else [])
    ensures RisingSettled(e.settled + if Lives(last) then [] else [Settlement(last.msg.id, Dropped)])
  {
  }

  lemma ResetKeeps(a: Pending)
    ensures Reset(a).msg == a.msg && Reset(a).held == a.held
  {
  }

  lemma DropUnfolds(p: seq<Pending>)
    requires p != []
    ensures var e, last := Drop(p[..|p| - 1]), p[|p| - 1];
            Drop(p) == Effect(e.pending + if Lives(last) then [Reset(last)] else [],
                              e.wire, e.settled + if Lives(last) then [] else [Settlement(last.msg.id, Dropped)])
  {
    var e := Drop(p[..|p| - 1]);
    assert e.pending + [] == e.pending && e.settled + [] == e.settled;
  }

  lemma DropBelow(p: seq<Pending>, e: Effect, n: nat)
    requires Dropping(p, e.pending, e.settled) && forall a :: a in p ==> a.msg.id < n
    ensures forall i :: 0 <= i < |e.pending| ==> e.pending[i].msg.id < n
    ensures forall i :: 0 <= i < |e.settled| ==> e.settled[i].id < n
  {
    forall i | 0 <= i < |e.pending| ensures e.pending[i].msg.id < n {
      assert e.pending[i] in e.pending;
    }
    forall i | 0 <= i < |e.settled| ensures e.settled[i].id < n {
      assert e.settled[i] in e.settled;
    }
  }

  lemma DroppingGrows(p: seq<Pending>, e: Effect, last: Pending)
    requires Dropping(p, e.pending, e.settled)
    ensures Dropping(p + [last], e.pending + if Lives(last) then [Reset(last)] else [],
                     e.settled + if Lives(last) then [] else [Settlement(last.msg.id, Dropped)])
  {
    var all := p + [last];
    var left := e.pending + if Lives(last) then [Reset(last)] else [];
    var settled := e.settled + if Lives(last) then [] else [Settlement(last.msg.id, Dropped)];
    assert last in all;
    forall a | a in left ensures !a.sent && exists b :: b in all && Lives(b) && a == Reset(b) {
      if a in e.pending {
        var b :| b in p && Lives(b) && a == Reset(b);
        assert b in all;
      }
    }
    forall x | x in settled ensures exists b :: b in all && !Lives(b) && x == Settlement(b.msg.id, Dropped) {
      if x in e.settled {
        var b :| b in p && !Lives(b) && x == Settlement(b.msg.id, Dropped);
        assert b in all;
      }
    }
  }

  /**
   * Every call made is pending or settled, not both, and settled once; only a call that is not held fails with the
   * link.
   */
  ghost predicate Ledger(made: seq<Msg>, p: seq<Pending>, settled: seq<Settlement>) {
    && (forall i :: 0 <= i < |made| ==> made[i].id == i)
    && (forall a :: a in p ==> a.msg in made)
    && (forall i, j :: 0 <= i < j < |settled| ==> settled[i].id != settled[j].id)
    && (forall x :: x in settled ==> x.id < |made| && !Has(p, x.id) && Fitting(made[x.id], x.outcome))
    && (forall i :: 0 <= i < |made| ==> Has(p, i) || IsSettled(settled, i))
  }

  predicate Fitting(m: Msg, o: Outcome) { IsHeld(m) ==> o.Answered? || o.TimedOut? }

  predicate IsSettled(settled: seq<Settlement>, id: nat) { exists x :: x in settled && x.id == id }

  /** Some pending calls settle: each once, and nothing else changes hands. */
  ghost predicate Moves(made: seq<Msg>, p: seq<Pending>, q: seq<Pending>, more: seq<Settlement>) {
    && (forall a :: a in q ==> exists b :: b in p && a.msg == b.msg)
    && (forall i, j :: 0 <= i < j < |more| ==> more[i].id != more[j].id)
    && (forall x :: x in more ==> Has(p, x.id) && !Has(q, x.id) && (x.id < |made| ==> Fitting(made[x.id], x.outcome)))
    && (forall a :: a in p ==> Has(q, a.msg.id) || IsSettled(more, a.msg.id))
  }

  lemma LedgerMoves(made: seq<Msg>, p: seq<Pending>, settled: seq<Settlement>, q: seq<Pending>, more: seq<Settlement>)
    requires Ledger(made, p, settled) && Moves(made, p, q, more)
    ensures Ledger(made, q, settled + more)
  {
    var all := settled + more;
    forall a | a in q ensures a.msg in made && Has(p, a.msg.id) {
      var b :| b in p && a.msg == b.msg;
    }
    forall x | x in more ensures x.id < |made| {
      var a :| a in p && a.msg.id == x.id;
      assert a.msg in made;
    }
    forall i, j | 0 <= i < j < |all| ensures all[i].id != all[j].id {
      assert i < |settled| ==> all[i] in settled;
      assert j >= |settled| ==> all[j] in more;
    }
    forall x | x in all ensures x.id < |made| && !Has(q, x.id) && Fitting(made[x.id], x.outcome) {
    }
    forall i | 0 <= i < |made| ensures Has(q, i) || IsSettled(all, i) {
      if IsSettled(settled, i) {
        var x :| x in settled && x.id == i;
        assert x in all;
      } else {
        var a :| a in p && a.msg.id == i;
        if IsSettled(more, i) {
          var x :| x in more && x.id == i;
          assert x in all;
        }
      }
    }
  }

  ghost predicate Inv(w: World) {
    && Queue(w.pending) && Carries(w.pending, w.wire) && Ledger(w.made, w.pending, w.settled)
    && (forall m :: m in w.wire ==> m in w.made)
    && (forall l :: l in w.links ==> Rising(l))
  }

  lemma SendMoves(made: seq<Msg>, p: seq<Pending>, q: seq<Pending>)
    requires SameCalls(p, q)
    ensures Moves(made, p, q, [])
  {
    forall a | a in q ensures exists b :: b in p && a.msg == b.msg {
      var i :| 0 <= i < |q| && q[i] == a;
      assert p[i] in p;
    }
    forall a | a in p ensures Has(q, a.msg.id) {
      var i :| 0 <= i < |p| && p[i] == a;
      assert q[i] in q;
    }
  }

  lemma SettleMoves(made: seq<Msg>, p: seq<Pending>, id: nat, o: Outcome)
    requires InOrder(p) && (o.Answered? || o.TimedOut?)
    ensures Moves(made, p, Settle(p, id, o).pending, Settle(p, id, o).settled)
    ensures InOrder(Settle(p, id, o).pending) && forall a :: a in Settle(p, id, o).pending ==> a in p
  {
    WithoutOne(p, id);
    hide Without;
    hide Moves;
    if Has(p, id) {
      OneMoves(made, p, Without(p, id), id, o);
    } else {
      SendMoves(made, p, p);
    }
  }

  lemma OneMoves(made: seq<Msg>, p: seq<Pending>, q: seq<Pending>, id: nat, o: Outcome)
    requires Has(p, id) && (o.Answered? || o.TimedOut?)
    requires forall a :: a in q <==> a in p && a.msg.id != id
    ensures Moves(made, p, q, [Settlement(id, o)])
  {
    var more := [Settlement(id, o)];
    assert more[0] in more && IsSettled(more, id);
    forall a | a in p ensures Has(q, a.msg.id) || IsSettled(more, a.msg.id) {
      if a.msg.id != id {
        assert a in q;
      }
    }
  }

  lemma DropMoves(made: seq<Msg>, p: seq<Pending>, left: seq<Pending>, settled: seq<Settlement>)
    requires Queue(p) && Dropping(p, left, settled) && RisingSettled(settled)
    requires forall a :: a in p && a.msg.id < |made| ==> made[a.msg.id] == a.msg
    ensures Moves(made, p, left, settled)
  {
    assert InOrder(p);
    forall x | x in settled
      ensures Has(p, x.id) && !Has(left, x.id) && (x.id < |made| ==> Fitting(made[x.id], x.outcome))
    {
      var b :| b in p && !Lives(b) && x == Settlement(b.msg.id, Dropped);
      forall a | a in left ensures a.msg.id != x.id {
        var c :| c in p && Lives(c) && a == Reset(c);
        SameIdSame(p, b, c);
      }
    }
    forall a | a in p ensures Has(left, a.msg.id) || IsSettled(settled, a.msg.id) {
      if Lives(a) {
        assert Reset(a) in left;
      } else {
        assert Settlement(a.msg.id, Dropped) in settled;
      }
    }
  }

  lemma SameIdSame(p: seq<Pending>, a: Pending, b: Pending)
    requires InOrder(p) && a in p && b in p
    ensures a.msg.id == b.msg.id ==> a == b
  {
    var i :| 0 <= i < |p| && p[i] == a;
    var j :| 0 <= j < |p| && p[j] == b;
    assert i < j ==> p[i].msg.id < p[j].msg.id;
    assert j < i ==> p[j].msg.id < p[i].msg.id;
  }

  /** A new call joins the end of the queue. */
  lemma CallJoins(w: World, m: Msg)
    requires Inv(w) && m.id == |w.made|
    ensures var q := w.pending + [Pending(m, IsHeld(m), false)];
            Queue(q) && Carries(q, w.wire) && Ledger(w.made + [m], q, w.settled)
  {
    var call := Pending(m, IsHeld(m), false);
    var q := w.pending + [call];
    LedgerJoins(w.made, w.pending, w.settled, m);
    LedgerBounds(w.made, w.pending, w.settled);
    forall x | x in w.wire ensures x.id < m.id {
      assert x in w.made;
    }
    hide Ledger;
    forall i, j | 0 <= i < j < |q| ensures q[i].msg.id < q[j].msg.id {
      if j == |w.pending| {
        assert q[i] in w.pending;
      }
    }
    assert call in q;
  }

  lemma LedgerBounds(made: seq<Msg>, p: seq<Pending>, settled: seq<Settlement>)
    requires Ledger(made, p, settled)
    ensures forall a :: a in p ==> a.msg.id < |made| && made[a.msg.id] == a.msg
  {
  }

  lemma LedgerJoins(made: seq<Msg>, p: seq<Pending>, settled: seq<Settlement>, m: Msg)
    requires Ledger(made, p, settled) && m.id == |made|
    ensures Ledger(made + [m], p + [Pending(m, IsHeld(m), false)], settled)
  {
    var call := Pending(m, IsHeld(m), false);
    var q := p + [call];
    assert call in q;
    forall x | x in settled ensures !Has(q, x.id) {
    }
    forall i | 0 <= i < |made| + 1 ensures Has(q, i) || IsSettled(settled, i) {
      if i < |made| && Has(p, i) {
        var a :| a in p && a.msg.id == i;
        assert a in q;
      }
    }
  }

  lemma LedgerRefuses(made: seq<Msg>, p: seq<Pending>, settled: seq<Settlement>, m: Msg)
    requires Ledger(made, p, settled) && m.id == |made| && !IsHeld(m)
    ensures Ledger(made + [m], p, settled + [Settlement(m.id, Unreachable)])
  {
    var no := Settlement(m.id, Unreachable);
    var all := settled + [no];
    assert no in all;
    LedgerBounds(made, p, settled);
    forall i, j | 0 <= i < j < |all| ensures all[i].id != all[j].id {
      if j == |settled| {
        assert all[i] in settled;
      }
    }
    forall i | 0 <= i < |made| + 1 ensures Has(p, i) || IsSettled(all, i) {
      if i < |made| && IsSettled(settled, i) {
        var x :| x in settled && x.id == i;
        assert x in all;
      }
    }
  }

  lemma CallKeeps(w: World, tool: string, args: string, open: nat -> bool)
    requires Inv(w)
    ensures Inv(Happen(w, Call(tool, args, open)))
  {
    var m := Msg(|w.made|, tool, args);
    var made := w.made + [m];
    if !IsHeld(m) && !open(0) {
      LedgerRefuses(w.made, w.pending, w.settled, m);
      hide Ledger;
      assert w.wire + [] == w.wire;
    } else {
      CallJoins(w, m);
      var q := w.pending + [Pending(m, IsHeld(m), false)];
      var k := if IsHeld(m) then 0 else 1;
      if open(k) {
        SendKeeps(w.(made := made, pending := q), open, k + 1);
        SendSame(q, open, k + 1);
        hide *;
        assert w.settled + [] == w.settled;
      } else {
        hide Ledger;
        assert w.wire + [] == w.wire && w.settled + [] == w.settled;
      }
    }
  }

  lemma SendKeeps(w: World, open: nat -> bool, k: nat)
    requires Inv(w)
    ensures Inv(w.(pending := Send(w.pending, open, k).pending, wire := w.wire + Send(w.pending, open, k).wire))
  {
    hide Send;
    var x := Send(w.pending, open, k);
    SendCarries(w.pending, open, k, w.wire);
    SendSame(w.pending, open, k);
    SendMoves(w.made, w.pending, x.pending);
    LedgerMoves(w.made, w.pending, w.settled, x.pending, []);
    assert w.settled + [] == w.settled;
    SentWasMade(w, open, k);
  }

  lemma {:induction false} SendsPending(p: seq<Pending>, open: nat -> bool, k: nat)
    ensures forall m :: m in Send(p, open, k).wire ==> exists a :: a in p && a.msg == m
  {
    SendUnfolds(p, open, k);
    hide Send;
    if p != [] && (p[0].sent || open(k)) {
      SendsPending(p[1..], open, if p[0].sent then k else k + 1);
      var e := Send(p[1..], open, if p[0].sent then k else k + 1);
      forall m | m in Send(p, open, k).wire ensures exists a :: a in p && a.msg == m {
        if m in e.wire {
          var a :| a in p[1..] && a.msg == m;
          assert a in p;
        } else {
          assert p[0] in p && p[0].msg == m;
        }
      }
    }
  }

  lemma SentWasMade(w: World, open: nat -> bool, k: nat)
    requires Ledger(w.made, w.pending, w.settled)
    ensures forall m :: m in Send(w.pending, open, k).wire ==> m in w.made
  {
    hide Send;
    SendsPending(w.pending, open, k);
    forall m | m in Send(w.pending, open, k).wire ensures m in w.made {
      var a :| a in w.pending && a.msg == m;
    }
  }

  lemma DropKeeps(w: World)
    requires Inv(w)
    ensures Inv(Happen(w, Down))
  {
    hide Drop;
    var x := Drop(w.pending);
    LedgerBounds(w.made, w.pending, w.settled);
    DropSettles(w.pending);
    DropMoves(w.made, w.pending, x.pending, x.settled);
    hide Ledger;
    hide Moves;
    hide Dropping;
    hide Queue;
    hide Carries;
    LedgerMoves(w.made, w.pending, w.settled, x.pending, x.settled);
    DropQueue(w.pending, x.pending, x.settled);
  }

  lemma DropQueue(p: seq<Pending>, left: seq<Pending>, settled: seq<Settlement>)
    requires Queue(p) && Dropping(p, left, settled) && InOrder(left)
    ensures Queue(left) && Carries(left, [])
  {
    forall a | a in left ensures a.held == IsHeld(a.msg) && !a.sent {
      var b :| b in p && Lives(b) && a == Reset(b);
    }
  }

  lemma SettleKeeps(w: World, id: nat, o: Outcome)
    requires Inv(w) && (o.Answered? || o.TimedOut?)
    ensures var x := Settle(w.pending, id, o);
            Inv(w.(pending := x.pending, settled := w.settled + x.settled))
  {
    hide Settle;
    var x := Settle(w.pending, id, o);
    SettleMoves(w.made, w.pending, id, o);
    SomeCarries(w.pending, x.pending, w.wire);
    LedgerMoves(w.made, w.pending, w.settled, x.pending, x.settled);
  }

  /** Every interleaving of calls, answers, timers and link changes keeps the invariant. */
  lemma {:induction false} RunKeeps(es: seq<Event>)
    ensures Inv(After(es))
  {
    if es != [] {
      var w, e := After(es[..|es| - 1]), es[|es| - 1];
      RunKeeps(es[..|es| - 1]);
      hide Inv;
      hide Calls;
      hide Send;
      hide Drop;
      hide Settle;
      match e
      case Call(tool, args, open) => CallKeeps(w, tool, args, open);
      case Up(open) => SendKeeps(w, open, 0);
      case Down => DropKeeps(w);
      case Answer(id, ok, text) => SettleKeeps(w, id, Answered(ok, text));
      case Timer(id) => SettleKeeps(w, id, TimedOut);
    }
  }

  // The promises, of every run.

  /** The sent calls are a prefix of the pending ones. */
  lemma SentIsPrefix(es: seq<Event>, i: nat, j: nat)
    requires i < j < |After(es).pending| && After(es).pending[j].sent
    ensures After(es).pending[i].sent
  {
    hide After;
    RunKeeps(es);
    var p := After(es).pending;
    assert p[i] in p && p[j] in p && p[i].msg.id < p[j].msg.id;
  }

  /** Each link carries each call at most once, in the order the calls were made. */
  lemma LinksCarryInOrder(es: seq<Event>)
    ensures Rising(After(es).wire) && forall l :: l in After(es).links ==> Rising(l)
  {
    RunKeeps(es);
  }

  /** Every call made is pending or settled, never both, and settles once; a held call is never settled by the link. */
  lemma CallsSettleOnce(es: seq<Event>)
    ensures Ledger(After(es).made, After(es).pending, After(es).settled)
  {
    RunKeeps(es);
  }

  /** A link drop settles no held call: each stays pending, to go again. */
  lemma HeldSurvivesDrop(es: seq<Event>, a: Pending)
    requires a in After(es).pending && a.held
    ensures var w := Happen(After(es), Down);
            a.(sent := false) in w.pending && !IsSettled(w.settled, a.msg.id)
  {
    hide After;
    RunKeeps(es);
    var w := After(es);
    assert Queue(w.pending) && Ledger(w.made, w.pending, w.settled);
    DropSettles(w.pending);
    hide Drop;
    assert Lives(a) && Reset(a) == a.(sent := false);
    var after := Happen(w, Down);
    assert Has(after.pending, a.msg.id);
    DropKeeps(w);
    hide Happen;
    assert Ledger(after.made, after.pending, after.settled);
  }

  lemma {:induction false} OpenSendsAll(p: seq<Pending>, open: nat -> bool, k: nat)
    requires forall n :: open(n)
    ensures forall a :: a in Send(p, open, k).pending ==> a.sent
  {
    if p != [] {
      OpenSendsAll(p[1..], open, if p[0].sent then k else k + 1);
    }
  }

  /** A link that comes up and stays open carries every pending call. */
  lemma UpCarriesAll(es: seq<Event>, open: nat -> bool)
    requires forall n :: open(n)
    ensures var w := Happen(After(es), Up(open));
            forall a :: a in w.pending ==> a.sent && a.msg in w.wire
  {
    hide After;
    RunKeeps(es);
    var w := After(es);
    SendKeeps(w, open, 0);
    OpenSendsAll(w.pending, open, 0);
  }

  /** The held call `m` is pending. */
  ghost predicate Waits(w: World, m: Msg) { exists b :: b in w.pending && b.msg == m && b.held }

  /** An answer or a timer for that call. */
  predicate Ends(e: Event, id: nat) { (e.Answer? && e.id == id) || (e.Timer? && e.id == id) }

  lemma SendKeepsCall(p: seq<Pending>, open: nat -> bool, k: nat, b: Pending) returns (c: Pending)
    requires b in p
    ensures c in Send(p, open, k).pending && c.msg == b.msg && c.held == b.held
  {
    SendSame(p, open, k);
    var i :| 0 <= i < |p| && p[i] == b;
    c := Send(p, open, k).pending[i];
  }

  lemma CallKeepsCall(p: seq<Pending>, m: Msg, open: nat -> bool, b: Pending) returns (c: Pending)
    requires b in p
    ensures c in Calls(p, m, open).pending && c.msg == b.msg && c.held == b.held
  {
    hide Send;
    var held := IsHeld(m);
    var k := if held then 0 else 1;
    var q := p + [Pending(m, held, false)];
    c := b;
    if (held || open(0)) && open(k) {
      c := SendKeepsCall(q, open, k + 1, b);
    }
  }

  /**
   * A held call waits on through every event that does not end it: other calls, answers and timers, links up and down.
   */
  lemma WaitsOn(es: seq<Event>, e: Event, m: Msg)
    requires Waits(After(es), m) && !Ends(e, m.id)
    ensures Waits(Happen(After(es), e), m)
  {
    var w := After(es);
    hide After;
    hide Send;
    hide Drop;
    hide Calls;
    hide Without;
    var b :| b in w.pending && b.msg == m && b.held;
    match e
    case Call(tool, args, open) =>
      var c := CallKeepsCall(w.pending, Msg(|w.made|, tool, args), open, b);
    case Up(open) =>
      var c := SendKeepsCall(w.pending, open, 0, b);
    case Down =>
      HeldSurvivesDrop(es, b);
      assert b.(sent := false) in Happen(w, Down).pending;
    case Answer(id, ok, text) => OthersWait(es, id, b);
    case Timer(id) => OthersWait(es, id, b);
  }

  lemma OthersWait(es: seq<Event>, id: nat, b: Pending)
    requires b in After(es).pending && b.msg.id != id
    ensures b in Without(After(es).pending, id)
  {
    hide After;
    RunKeeps(es);
    assert Queue(After(es).pending);
    WithoutOne(After(es).pending, id);
  }

  lemma {:induction false} WaitsThrough(es: seq<Event>, more: seq<Event>, m: Msg)
    requires Waits(After(es), m) && forall i :: 0 <= i < |more| ==> !Ends(more[i], m.id)
    ensures Waits(After(es + more), m)
    decreases |more|
  {
    hide Waits;
    hide Happen;
    if more == [] {
      assert es + more == es;
    } else {
      var front, last := more[..|more| - 1], more[|more| - 1];
      WaitsThrough(es, front, m);
      WaitsOn(es + front, last, m);
      assert (es + more)[..|es + more| - 1] == es + front;
    }
  }

  /**
   * A held call that is pending goes out on every link that comes up and stays open, over any number of drops and
   * whatever else happens, until an answer or a timer ends it.
   */
  lemma HeldGoesAgain(es: seq<Event>, a: Pending, more: seq<Event>, open: nat -> bool)
    requires a in After(es).pending && a.held && forall n :: open(n)
    requires forall i :: 0 <= i < |more| ==> !Ends(more[i], a.msg.id)
    ensures var w := Happen(After(es + [Down] + more), Up(open));
            a.msg in w.wire && Waits(w, a.msg) && !IsSettled(w.settled, a.msg.id)
  {
    hide Ends;
    hide Happen;
    hide After;
    assert Waits(After(es), a.msg);
    var all := [Down] + more;
    assert !Ends(Down, a.msg.id) by {
      DownEndsNone(a.msg.id);
    }
    forall i | 0 <= i < |all| ensures !Ends(all[i], a.msg.id) {
      assert i > 0 ==> all[i] == more[i - 1];
    }
    WaitsThrough(es, all, a.msg);
    var run := es + [Down] + more;
    assert run == es + all;
    assert !Ends(Up(open), a.msg.id) by {
      UpEndsNone(open, a.msg.id);
    }
    WaitsOn(run, Up(open), a.msg);
    UpCarriesAll(run, open);
    var w := Happen(After(run), Up(open));
    var b :| b in w.pending && b.msg == a.msg && b.held;
    AfterOne(run, Up(open));
    NotSettled(run + [Up(open)], b);
  }

  lemma DownEndsNone(id: nat)
    ensures !Ends(Down, id)
  {
  }

  lemma UpEndsNone(open: nat -> bool, id: nat)
    ensures !Ends(Up(open), id)
  {
  }

  lemma AfterOne(es: seq<Event>, e: Event)
    ensures After(es + [e]) == Happen(After(es), e)
  {
    assert (es + [e])[..|es|] == es;
  }

  lemma NotSettled(es: seq<Event>, b: Pending)
    requires b in After(es).pending
    ensures !IsSettled(After(es).settled, b.msg.id)
  {
    hide After;
    RunKeeps(es);
    var w := After(es);
    assert Ledger(w.made, w.pending, w.settled) && Has(w.pending, b.msg.id);
  }
}
