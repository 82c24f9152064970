/**
 * The daemon's keeper of a machine's pause (machine/pause.ts): settings and memory changed by the tray, a person's
 * input and new settings, saved at each change so that a restarted daemon goes on from them.
 */
module PauseKeeping {
  import opened Prelude
  import opened Schedule
  import opened PauseRules

  datatype Kept = Kept(settings: Settings, mem: Memory)

  datatype Event =
    | Tray(paused: bool)
    | Input(at: Option<int>)
    | NewSettings(settings: Settings)
    | Restart

  /** A person's input as the keeper times it: one "from the future", or without a time, is now. */
  function When(at: Option<int>, now: int): int {
    if at.Some? && at.value <= now + 5000 then Min(at.value, now) else now
  }

  /**
   * New settings: a word the old schedule had overtaken is dropped, and so is input kept for an activity pause now off.
   */
  function Resettle(k: Kept, next: Settings, now: int): Kept {
    if next == k.settings then k
    else
      var mem := SettingsChanged(k.settings, k.mem, now);
      Kept(next, if next.activity.enabled then mem else mem.(inputAt := None))
  }

  function Next(k: Kept, e: Event, now: int): Kept {
    match e
    case Tray(paused) => k.(mem := TrayCommand(k.mem, paused, now))
    case Input(at) => if k.settings.activity.enabled then k.(mem := PersonInput(k.mem, When(at, now))) else k
    case NewSettings(next) => Resettle(k, next, now)
    case Restart => k
  }

  class PauseKeeper {
    var settings: Settings
    var mem: Memory
    var last: Answer
    /** pause.json */
    var file: Kept

    ghost predicate Valid()
      reads this
    {
      file == Kept(settings, mem)
    }

    /** A daemon starts from what the last one saved. */
    constructor (file: Kept, now: int)
      ensures Valid() && this.file == file
      ensures last == PauseState(settings, mem, now)
    {
      this.file, settings, mem := file, file.settings, file.mem;
      last := PauseState(file.settings, file.mem, now);
    }

    method Command(paused: bool, now: int)
      requires Valid()
      modifies this
      ensures Valid() && file == Next(old(file), Tray(paused), now)
      ensures last == PauseState(settings, mem, now)
    {
      mem := TrayCommand(mem, paused, now);
      Save();
      var _ := Look(now, true);
    }

    method TakeInput(at: Option<int>, now: int)
      requires Valid()
      modifies this
      ensures Valid() && file == Next(old(file), Input(at), now)
      ensures file != old(file) ==> last == PauseState(settings, mem, now)
    {
      var w := When(at, now);
      if !settings.activity.enabled {
        return;
      }
      var before := mem;
      mem := PersonInput(mem, w);
      if mem == before {
        return;
      }
      Save();
      var _ := Look(now, false);
    }

    method SetSettings(next: Settings, now: int) returns (activity: Option<Activity>)
      requires Valid()
      modifies this
      ensures Valid() && file == Next(old(file), NewSettings(next), now)
      ensures activity == if next.activity != old(settings).activity then Some(next.activity) else None
      ensures file != old(file) ==> last == PauseState(settings, mem, now)
    {
      if next == settings {
        return None;
      }
      activity := if next.activity != settings.activity then Some(next.activity) else None;
      mem := SettingsChanged(settings, mem, now);
      if !next.activity.enabled && mem.inputAt.Some? {
        mem := mem.(inputAt := None);
      }
      settings := next;
      Save();
      var _ := Look(now, true);
    }

    /** Looks again, and says whether the portal and the tray are told. */
    method Look(now: int, force: bool) returns (told: bool)
      modifies `last
      ensures last == PauseState(settings, mem, now)
      ensures told <==> force || !SameReport(old(last), last)
    {
      var p := PauseState(settings, mem, now);
      told := force || !SameReport(last, p);
      last := p;
    }

    method Save()
      modifies `file
      ensures Valid()
    {
      file := Kept(settings, mem);
    }
  }

  predicate SameReport(a: Answer, b: Answer) {
    a.paused == b.paused && a.reason == b.reason && a.until == b.until && a.since == b.since
  }

  /** Two reports are the same when nothing but the line of text differs. */
  lemma SameReportIff(a: Answer, b: Answer)
    ensures SameReport(a, b) <==> a == b.(detail := a.detail)
  {
  }

  // ------------------------------------------------------------------ runs

  datatype Step = Step(now: int, event: Event)

  function After(k: Kept, run: seq<Step>): Kept
    decreases |run|
  {
    if run == [] then k else After(Next(k, run[0].event, run[0].now), run[1..])
  }

  /** A clock that never goes back, from `now` to `until`. */
  ghost predicate Clocked(now: int, run: seq<Step>, until: int)
    decreases |run|
  {
    if run == [] then now <= until else now <= run[0].now && Clocked(run[0].now, run[1..], until)
  }

  ghost predicate NoTray(run: seq<Step>) {
    forall i :: 0 <= i < |run| ==> !run[i].event.Tray?
  }

  /** An edge of the schedule in force came after the tray's last word. */
  predicate Overtaken(k: Kept, now: int) {
    var edge := LastEdge(k.settings.schedule, now);
    k.mem.manual.Some? && edge.Some? && k.mem.manual.value.at < edge.value
  }

  predicate Silenced(k: Kept, now: int) {
    k.mem.manual.None? || Overtaken(k, now)
  }

  lemma SilencedLater(k: Kept, now: int, later: int)
    requires Silenced(k, now) && now <= later
    ensures Silenced(k, later)
  {
    var s := k.settings.schedule;
    if k.mem.manual.Some? && Scheduled(s) {
      LastEdgeMonotone(s, now, later);
    }
  }

  lemma SilencedByAny(k: Kept, e: Event, now: int)
    requires Silenced(k, now) && !e.Tray?
    ensures Silenced(Next(k, e, now), now)
  {
  }

  lemma {:induction false} SilencedOverRuns(k: Kept, now: int, run: seq<Step>, t: int)
    requires Silenced(k, now) && NoTray(run) && Clocked(now, run, t)
    ensures Silenced(After(k, run), t)
    decreases |run|
  {
    if run == [] {
      SilencedLater(k, now, t);
    } else {
      var first := run[0];
      SilencedLater(k, now, first.now);
      SilencedByAny(k, first.event, first.now);
      SilencedOverRuns(Next(k, first.event, first.now), first.now, run[1..], t);
    }
  }

  lemma SilencedAnswer(k: Kept, t: int)
    requires Silenced(k, t)
    ensures PauseState(k.settings, k.mem, t).reason != Some(Manual)
    ensures PauseState(k.settings, k.mem, t) == PauseState(k.settings, k.mem.(manual := None), t)
  {
    SilencedDecide(k, ScheduleAt(k.settings.schedule, t), t);
  }

  lemma SilencedDecide(k: Kept, sched: Option<At>, t: int)
    requires ManualLive(k.mem, LastOf(sched)).None?
    ensures Decide(k.settings, k.mem, sched, t).reason != Some(Manual)
    ensures Decide(k.settings, k.mem, sched, t) == Decide(k.settings, k.mem.(manual := None), sched, t)
  {
  }

  /**
   * A tray word once overtaken by an edge of the schedule then in force never decides again, whatever input, settings
   * and restarts follow, until the tray speaks again: every later answer is the one without it.
   */
  lemma OvertakenForGood(k: Kept, now: int, run: seq<Step>, t: int)
    requires Overtaken(k, now) && NoTray(run) && Clocked(now, run, t)
    ensures var a := After(k, run);
            && PauseState(a.settings, a.mem, t).reason != Some(Manual)
            && PauseState(a.settings, a.mem, t) == PauseState(a.settings, a.mem.(manual := None), t)
  {
    SilencedOverRuns(k, now, run, t);
    SilencedAnswer(After(k, run), t);
  }

  ghost predicate Quiet(k: Kept, until: int) {
    k.mem.inputAt.None? && k.mem.ignoreUntil == Some(until)
  }

  lemma {:induction false} QuietOverRuns(k: Kept, now: int, run: seq<Step>, t: int, until: int)
    requires Quiet(k, until) && NoTray(run) && Clocked(now, run, t) && t < until
    ensures Quiet(After(k, run), until)
    decreases |run|
  {
    if run != [] {
      ClockedWithin(run[0].now, run[1..], t);
      QuietOverRuns(Next(k, run[0].event, run[0].now), run[0].now, run[1..], t, until);
    }
  }

  lemma {:induction false} ClockedWithin(now: int, run: seq<Step>, t: int)
    requires Clocked(now, run, t)
    ensures now <= t
    decreases |run|
  {
    if run != [] {
      ClockedWithin(run[0].now, run[1..], t);
    }
  }

  /** For SUPPRESS_SECONDS after a tray unpause no input pauses the machine, whatever else happens meanwhile. */
  lemma UnpauseIgnoresInput(k: Kept, now: int, run: seq<Step>, t: int)
    requires NoTray(run) && Clocked(now, run, t) && t < now + SUPPRESS_SECONDS * 1000
    ensures var a := After(Next(k, Tray(false), now), run); PauseState(a.settings, a.mem, t).reason != Some(ByActivity)
  {
    QuietOverRuns(Next(k, Tray(false), now), now, run, t, now + SUPPRESS_SECONDS * 1000);
  }
}
