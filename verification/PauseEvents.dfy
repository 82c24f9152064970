/**
 * The keeper's answer by what happened (machine/pause.ts with machine/pauseRules.ts): what a word from the tray and a
 * person's input come to, over any run of input, settings and restarts after them.
 */
module PauseEvents {
  import opened Prelude
  import opened Schedule
  import opened PauseRules
  import opened PauseKeeping
  import opened Spans

  /** The settings in force after the run. */
  function SettingsAfter(s: Settings, run: seq<Step>): Settings
    decreases |run|
  {
    if run == [] then s
    else SettingsAfter(if run[0].event.NewSettings? then run[0].event.settings else s, run[1..])
  }

  /** The schedule has, as far as it is searched, an edge after `at` and up to `now`. */
  predicate Overtakes(s: Schedule, at: int, now: int) {
    var e := LastEdge(s, now); e.Some? && at < e.value
  }

  /** Settings were replaced whose schedule, until then in force, had an edge after `at` by then. */
  predicate OvertakenIn(s: Settings, at: int, run: seq<Step>)
    decreases |run|
  {
    run != [] &&
    var e := run[0].event;
    if e.NewSettings? then
      (e.settings != s && Overtakes(s.schedule, at, run[0].now)) || OvertakenIn(e.settings, at, run[1..])
    else OvertakenIn(s, at, run[1..])
  }

  /** For no schedule and one with a gap, that is an edge of the unbounded schedule. */
  lemma OvertakesByEdge(s: Schedule, at: int, now: int)
    requires Scheduled(s) ==> HasGap(s)
    ensures Overtakes(s, at, now) <==> Scheduled(s) && EdgeSince(s, at, now)
  {
    if Scheduled(s) {
      SearchAgrees(s, now);
      LastEdgeDecides(s, now, LastEdge(s, now).value, at);
    }
  }

  lemma {:induction false} AtMostNow(edges: seq<int>, now: int)
    ensures LastAtMost(edges, now).Some? ==> LastAtMost(edges, now).value <= now
  {
    if edges != [] {
      AtMostNow(edges[..|edges| - 1], now);
    }
  }

  lemma NotYet(s: Schedule, now: int)
    ensures !Overtakes(s, now, now)
  {
    if s.enabled && s.days != {} {
      var merged := Merge(Sorting.Sort(WindowsAround(s, now), From));
      AtMostNow(Sorting.Sort(Flatten(merged), Id), now);
    }
  }

  lemma {:induction false} NoWord(k: Kept, run: seq<Step>)
    requires NoTray(run) && k.mem.manual.None?
    ensures After(k, run).mem.manual.None?
    decreases |run|
  {
    if run != [] {
      NoWord(Next(k, run[0].event, run[0].now), run[1..]);
    }
  }

  /** The tray's word is remembered until settings are replaced whose schedule had overtaken it. */
  lemma {:induction false} WordKept(k: Kept, word: Word, run: seq<Step>)
    requires NoTray(run) && k.mem.manual == Some(word)
    ensures After(k, run).settings == SettingsAfter(k.settings, run)
    ensures After(k, run).mem.manual == if OvertakenIn(k.settings, word.at, run) then None else Some(word)
    decreases |run|
  {
    hide Overtakes;
    hide Next;
    if run != [] {
      var e, now := run[0].event, run[0].now;
      var next := Next(k, e, now);
      WordStep(k, word, e, now);
      if next.mem.manual.None? {
        NoWord(next, run[1..]);
        SettingsGo(next, run[1..]);
      } else {
        WordKept(next, word, run[1..]);
      }
    }
  }

  lemma WordStep(k: Kept, word: Word, e: Event, now: int)
    requires k.mem.manual == Some(word) && !e.Tray?
    ensures var next := Next(k, e, now);
            && next.settings == (if e.NewSettings? then e.settings else k.settings)
            && next.mem.manual ==
               if e.NewSettings? && e.settings != k.settings && Overtakes(k.settings.schedule, word.at, now) then None
               else Some(word)
  {
    hide ScheduleAt;
  }

  lemma {:induction false} SettingsGo(k: Kept, run: seq<Step>)
    ensures After(k, run).settings == SettingsAfter(k.settings, run)
    decreases |run|
  {
    if run != [] {
      SettingsGo(Next(k, run[0].event, run[0].now), run[1..]);
    }
  }

  /**
   * What a word from the tray comes to, whatever input, settings and restarts follow it. It holds until an edge comes
   * after it, of the schedule in force at the time asked, or of one replaced since. While it holds, a pause pauses, and
   * an unpause lets only a person's input pause; once overtaken it is no reason any more.
   */
  lemma TrayDecides(k: Kept, p: bool, now: int, run: seq<Step>, t: int)
    requires NoTray(run)
    ensures var a := After(Next(k, Tray(p), now), run);
            var answer := PauseState(a.settings, a.mem, t);
            var settings := SettingsAfter(k.settings, run);
            var holds := !OvertakenIn(k.settings, now, run) && !Overtakes(settings.schedule, now, t);
            && a.settings == settings
            && (holds && p ==> answer.paused && answer.reason == Some(Manual) && answer.since == Some(now))
            && (holds && !p && SomeoneThere(settings, a.mem, t) ==> answer.paused && answer.reason == Some(ByActivity))
            && (holds && !p && !SomeoneThere(settings, a.mem, t) ==>
                  !answer.paused && answer.reason == Some(Manual) && answer.since == Some(now))
            && (!holds ==> answer.reason != Some(Manual))
  {
    var first := Next(k, Tray(p), now);
    WordKept(first, Word(p, now), run);
    var a := After(first, run);
    WordDecides(a.settings, a.mem, p, now, t);
    hide *;
  }

  lemma WordDecides(settings: Settings, mem: Memory, p: bool, now: int, t: int)
    requires mem.manual == Some(Word(p, now)) || mem.manual == None
    ensures var answer := PauseState(settings, mem, t);
            if mem.manual.Some? && !Overtakes(settings.schedule, now, t) then
              if !p && SomeoneThere(settings, mem, t) then answer.paused && answer.reason == Some(ByActivity)
              else answer.paused == p && answer.reason == Some(Manual) && answer.since == Some(now)
            else answer.reason != Some(Manual)
  {
    hide ScheduleAt;
  }

  /** In particular the tray's Pause pauses the machine at once, and its Unpause sets it to work. */
  lemma TrayAtOnce(k: Kept, p: bool, now: int)
    ensures var a := Next(k, Tray(p), now); PauseState(a.settings, a.mem, now).paused == p
    ensures var a := Next(k, Tray(p), now); PauseState(a.settings, a.mem, now).reason == Some(Manual)
  {
    NotYet(k.settings.schedule, now);
    TrayDecides(k, p, now, [], now);
    hide ScheduleAt;
  }

  // ------------------------------------------------------------------ a person's input

  /** The activity pause stays on. */
  ghost predicate StaysOn(run: seq<Step>) {
    forall i :: 0 <= i < |run| && run[i].event.NewSettings? ==> run[i].event.settings.activity.enabled
  }

  lemma {:induction false} InputKept(k: Kept, w: int, run: seq<Step>)
    requires NoTray(run) && StaysOn(run) && k.mem.inputAt.Some? && w <= k.mem.inputAt.value
    requires k.settings.activity.enabled
    ensures var a := After(k, run);
            a.settings.activity.enabled && a.mem.inputAt.Some? && w <= a.mem.inputAt.value
    decreases |run|
  {
    if run != [] {
      InputKept(Next(k, run[0].event, run[0].now), w, run[1..]);
    }
  }

  /**
   * A person's input while the activity pause is on, and outside the quiet time, keeps the machine paused from then on
   * for the idle time then in force, whatever input, settings and restarts follow, as long as neither the tray speaks
   * nor the activity pause is turned off.
   */
  lemma InputPauses(k: Kept, at: Option<int>, now: int, run: seq<Step>, t: int)
    requires k.settings.activity.enabled && NoTray(run) && StaysOn(run)
    requires k.mem.ignoreUntil.Some? ==> k.mem.ignoreUntil.value <= When(at, now)
    ensures var a := After(Next(k, Input(at), now), run);
            t < When(at, now) + a.settings.activity.idleMinutes * 60_000 ==> PauseState(a.settings, a.mem, t).paused
  {
    var next := Next(k, Input(at), now);
    InputKept(next, When(at, now), run);
    var a := After(next, run);
    hide After;
    hide ScheduleAt;
  }

  /** The quiet time: thirty seconds from the tray's last Unpause. */
  lemma {:induction false} QuietTime(k: Kept, now: int, run: seq<Step>)
    requires NoTray(run)
    ensures After(Next(k, Tray(false), now), run).mem.ignoreUntil == Some(now + 30_000)
  {
    QuietKept(Next(k, Tray(false), now), run);
  }

  lemma {:induction false} QuietKept(k: Kept, run: seq<Step>)
    requires NoTray(run)
    ensures After(k, run).mem.ignoreUntil == k.mem.ignoreUntil
    decreases |run|
  {
    if run != [] {
      QuietKept(Next(k, run[0].event, run[0].now), run[1..]);
    }
  }

  /**
   * Input is forgotten with the activity pause: once settings have turned that off, no input from before pauses the
   * machine again, whatever settings, tray words and restarts follow.
   */
  lemma InputForgotten(k: Kept, off: Settings, now: int, run: seq<Step>, t: int)
    requires !off.activity.enabled && (k.settings.activity.enabled || k.mem.inputAt.None?)
    requires forall i :: 0 <= i < |run| ==> !run[i].event.Input?
    ensures var a := After(Next(k, NewSettings(off), now), run);
            PauseState(a.settings, a.mem, t).reason != Some(ByActivity)
  {
    NoInputKept(Next(k, NewSettings(off), now), run);
    hide ScheduleAt;
    hide After;
  }

  lemma {:induction false} NoInputKept(k: Kept, run: seq<Step>)
    requires k.mem.inputAt.None? && forall i :: 0 <= i < |run| ==> !run[i].event.Input?
    ensures After(k, run).mem.inputAt.None?
    decreases |run|
  {
    if run != [] {
      NoInputKept(Next(k, run[0].event, run[0].now), run[1..]);
    }
  }

  // ------------------------------------------------------------------ what the answer's line of text shows

  /** The text shows the answer's own reason, whether it pauses, and its times. */
  lemma DetailAgrees(settings: Settings, mem: Memory, t: int)
    ensures var a := PauseState(settings, mem, t);
            match a.detail
            case InUse(minutes, back) =>
              a.reason == Some(ByActivity) && a.paused && a.until == Some(back) &&
                minutes == settings.activity.idleMinutes
            case FromTray(paused, at, over) =>
              a.reason == Some(Manual) && a.paused == paused && a.since == Some(at) && a.until == over
            case Outside(schedule, resumes) =>
              a.reason == Some(BySchedule) && a.paused && schedule == settings.schedule && a.until == resumes
            case Within(schedule, until) =>
              a.reason == Some(BySchedule) && !a.paused && schedule == settings.schedule && a.until == until
            case Unscheduled => a.reason == None && !a.paused && a.since == None && a.until == None
  {
    hide ScheduleAt;
  }
}
