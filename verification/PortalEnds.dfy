/**
 * How calls to the portal end (`machine/portalCalls.ts`), over every run of calls, answers, timers and link changes,
 * and what the record of the lost links holds.
 */
module PortalEnds {
  import opened Prelude
  import opened PortalCalls

  /** In this world this event settles so: by what the event is, and which calls are pending. */
  ghost predicate SettledBy(w: World, e: Event, s: Settlement) {
    match e
    case Call(tool, _, open) =>
      && s == Settlement(|w.made|, Unreachable) && !open(0)
      && tool != "blocked_on" && tool != "waiting_on_person" && tool != "wake_me" && tool != "cancel_wake"
    case Up(_) => false
    case Down => s.outcome == Dropped && exists a :: a in w.pending && a.msg.id == s.id && a.sent && !a.held
    case Answer(id, ok, text) =>
      s == Settlement(id, Answered(ok, text)) && exists a :: a in w.pending && a.msg.id == id
    case Timer(id) => s == Settlement(id, TimedOut) && exists a :: a in w.pending && a.msg.id == id
  }

  lemma {:induction false} DropsSettle(p: seq<Pending>, s: Settlement)
    ensures s in Drop(p).settled <==>
            s.outcome == Dropped && exists a :: a in p && a.msg.id == s.id && a.sent && !a.held
  {
    if p != [] {
      var front, last := p[..|p| - 1], p[|p| - 1];
      assert p == front + [last];
      DropsSettle(front, s);
      assert forall a :: a in p <==> a in front || a == last;
    }
  }

  lemma CallSettles(w: World, tool: string, args: string, open: nat -> bool, s: Settlement)
    ensures s in Happen(w, Call(tool, args, open)).settled <==>
            s in w.settled || SettledBy(w, Call(tool, args, open), s)
  {
    var m := Msg(|w.made|, tool, args);
    SendSame(w.pending + [Pending(m, IsHeld(m), false)], open, 1);
    SendSame(w.pending + [Pending(m, IsHeld(m), false)], open, 2);
    hide Send;
  }

  lemma StepSettles(w: World, e: Event, s: Settlement)
    ensures s in Happen(w, e).settled <==> s in w.settled || SettledBy(w, e, s)
  {
    match e
    case Call(tool, args, open) => CallSettles(w, tool, args, open, s);
    case Down => DropsSettle(w.pending, s);
    case _ =>
      hide Send;
      hide Without;
  }

  /** One of the run's events settled the call so. */
  ghost predicate SomeSettled(es: seq<Event>, s: Settlement) {
    exists i :: 0 <= i < |es| && SettledBy(After(es[..i]), es[i], s)
  }

  lemma SomeGrows(front: seq<Event>, e: Event, s: Settlement)
    ensures SomeSettled(front + [e], s) <==> SomeSettled(front, s) || SettledBy(After(front), e, s)
  {
    hide SettledBy;
    hide After;
    var es := front + [e];
    assert es[..|front|] == front;
    if SomeSettled(front, s) {
      var i :| 0 <= i < |front| && SettledBy(After(front[..i]), front[i], s);
      assert es[..i] == front[..i] && es[i] == front[i];
    }
    if SettledBy(After(front), e, s) {
      assert SettledBy(After(es[..|front|]), es[|front|], s);
    }
    if SomeSettled(es, s) {
      var i :| 0 <= i < |es| && SettledBy(After(es[..i]), es[i], s);
      if i < |front| {
        assert es[..i] == front[..i] && es[i] == front[i];
      }
    }
  }

  /**
   * Over every run, exactly how calls have ended. By an answer or a timer that came while they were pending; by the
   * loss of a link they had gone out on, unless they are held; or at once, unless held, when the link was not open.
   */
  lemma {:induction false} SettledHow(es: seq<Event>, s: Settlement)
    ensures s in After(es).settled <==> SomeSettled(es, s)
  {
    if es == [] {
      assert !SomeSettled(es, s);
    } else {
      var front, e := es[..|es| - 1], es[|es| - 1];
      assert es == front + [e];
      hide *;
      SettledHow(front, s);
      StepSettles(After(front), e, s);
      SomeGrows(front, e, s);
      AfterOne(front, e);
    }
  }

  /** The record of the links: each loss of a link adds what it carried, and the next one begins with nothing. */
  lemma LinkEnds(es: seq<Event>, e: Event)
    ensures var was, w := After(es), After(es + [e]);
            && w.links == was.links + (if e.Down? then [was.wire] else [])
            && if e.Down? then w.wire == [] else was.wire <= w.wire
  {
    assert (es + [e])[..|es|] == es;
    hide Send;
    hide Drop;
    hide Settle;
  }

  /** The calls made are those of the run's calls, in order. */
  lemma MadeIs(es: seq<Event>, e: Event)
    ensures After(es + [e]).made ==
            After(es).made + if e.Call? then [Msg(|After(es).made|, e.tool, e.args)] else []
  {
    assert (es + [e])[..|es|] == es;
  }
}
