/**
 * A machine's pause (machine/pauseRules.ts): the tray's last word, the schedule's last edge and a person's input,
 * combined into one answer. Times are whole milliseconds; the texts of the answer are kept as the values they are built
 * from.
 */
module PauseRules {
  import opened Prelude
  import opened Schedule

  const SUPPRESS_SECONDS := 30

  datatype RawActivity = Activity(enabled: bool, idleMinutes: int)
  type Activity = a: RawActivity | 1 <= a.idleMinutes <= 1440 witness Activity(false, 90)

  datatype Settings = Settings(schedule: Schedule, activity: Activity)

  datatype Word = Word(paused: bool, at: int)

  datatype Memory = Memory(manual: Option<Word>, inputAt: Option<int>, ignoreUntil: Option<int>)

  datatype Reason = Manual | BySchedule | ByActivity

  /** The values the answer's one line of text shows. */
  datatype Detail =
    | InUse(idleMinutes: int, back: int)
    | FromTray(paused: bool, at: int, takesOver: Option<int>)
    | Outside(schedule: Schedule, resumes: Option<int>)
    | Within(schedule: Schedule, until: Option<int>)
    | Unscheduled

  datatype Answer = Answer(paused: bool, reason: Option<Reason>, since: Option<int>, until: Option<int>, detail: Detail)

  function TrayCommand(mem: Memory, paused: bool, now: int): Memory {
    if paused then mem.(manual := Some(Word(true, now)))
    else Memory(Some(Word(false, now)), None, Some(now + SUPPRESS_SECONDS * 1000))
  }

  function PersonInput(mem: Memory, at: int): Memory {
    if mem.ignoreUntil.Some? && at < mem.ignoreUntil.value then mem
    else if mem.inputAt.Some? && at <= mem.inputAt.value then mem
    else mem.(inputAt := Some(at))
  }

  function SettingsChanged(old_: Settings, mem: Memory, now: int): Memory {
    var edge := LastEdge(old_.schedule, now);
    if mem.manual.None? || edge.None? || mem.manual.value.at >= edge.value then mem
    else mem.(manual := None)
  }

  /** The tray's last word, unless an edge of the schedule came after it. */
  function ManualLive(mem: Memory, edge: Option<int>): Option<Word> {
    if mem.manual.Some? && (edge.None? || mem.manual.value.at >= edge.value) then mem.manual else None
  }

  function InputEnds(settings: Settings, mem: Memory): Option<int> {
    if settings.activity.enabled && mem.inputAt.Some?
    then Some(mem.inputAt.value + settings.activity.idleMinutes * MINUTE) else None
  }

  /** The answer at `now`, given what the schedule says then. */
  function Decide(settings: Settings, mem: Memory, sched: Option<At>, now: int): Answer {
    var next := NextOf(sched);
    var word := ManualLive(mem, LastOf(sched));
    var basePaused := if word.Some? then word.value.paused else sched.Some? && !sched.value.inside;
    var back := InputEnds(settings, mem);
    if !basePaused && back.Some? && now < back.value then
      Answer(true, Some(ByActivity), mem.inputAt, back, InUse(settings.activity.idleMinutes, back.value))
    else if word.Some? then
      Answer(word.value.paused, Some(Manual), Some(word.value.at), next,
        FromTray(word.value.paused, word.value.at, next))
    else if sched.Some? then
      Answer(basePaused, Some(BySchedule), sched.value.lastEdge, next,
             if basePaused then Outside(settings.schedule, next) else Within(settings.schedule, next))
    else
      Answer(false, None, None, None, Unscheduled)
  }

  function PauseState(settings: Settings, mem: Memory, now: int): Answer {
    Decide(settings, mem, ScheduleAt(settings.schedule, now), now)
  }

  /** The earlier of two times after `now`; None is no time. */
  function Sooner(a: Option<int>, b: Option<int>, now: int): Option<int> {
    var x := if a.Some? && a.value > now then a else None;
    var y := if b.Some? && b.value > now then b else None;
    if x.None? then y else if y.None? then x else Some(Min(x.value, y.value))
  }

  function ChangeAfter(settings: Settings, mem: Memory, next: Option<int>, now: int): Option<int> {
    Sooner(Sooner(next, InputEnds(settings, mem), now), mem.ignoreUntil, now)
  }

  function NextChangeAt(settings: Settings, mem: Memory, now: int): Option<int> {
    ChangeAfter(settings, mem, NextEdge(settings.schedule, now), now)
  }

  // ------------------------------------------------------------------ the latest event wins

  predicate Scheduled(s: Schedule) { s.enabled && s.days != {} }

  /** An edge of the unbounded schedule came after `at`, up to `now`. */
  ghost predicate EdgeSince(s: Schedule, at: int, now: int) {
    exists e :: at < e <= now && EdgeEver(s, e)
  }

  /**
   * The base state by events: the tray's last word holds unless the schedule has an edge after it; then, and without a
   * word, the machine runs just inside the schedule.
   */
  ghost predicate BasePaused(settings: Settings, mem: Memory, now: int) {
    var s := settings.schedule;
    if mem.manual.Some? && (!Scheduled(s) || !EdgeSince(s, mem.manual.value.at, now)) then mem.manual.value.paused
    else Scheduled(s) && !InsideEver(s, now)
  }

  ghost predicate SomeoneThere(settings: Settings, mem: Memory, now: int) {
    settings.activity.enabled && mem.inputAt.Some? && now - mem.inputAt.value < settings.activity.idleMinutes * MINUTE
  }

  /**
   * The latest of the tray's word and the schedule's edges decides, and a person at the keyboard pauses what would run.
   */
  lemma LatestEventWins(settings: Settings, mem: Memory, now: int)
    requires Scheduled(settings.schedule) ==> HasGap(settings.schedule)
    ensures PauseState(settings, mem, now).paused <==>
      BasePaused(settings, mem, now) || SomeoneThere(settings, mem, now)
    ensures PauseState(settings, mem, now).reason == Some(ByActivity) <==>
              !BasePaused(settings, mem, now) && SomeoneThere(settings, mem, now)
  {
    var s := settings.schedule;
    if Scheduled(s) {
      SearchAgrees(s, now);
      if mem.manual.Some? {
        LastEdgeDecides(s, now, LastEdge(s, now).value, mem.manual.value.at);
      }
    }
    DecideByEvents(settings, mem, ScheduleAt(s, now), now);
  }

  lemma DecideByEvents(settings: Settings, mem: Memory, sched: Option<At>, now: int)
    requires sched.Some? <==> Scheduled(settings.schedule)
    requires sched.Some? ==> sched.value.lastEdge.Some? && (sched.value.inside <==> InsideEver(settings.schedule, now))
    requires sched.Some? && mem.manual.Some? ==>
               (EdgeSince(settings.schedule, mem.manual.value.at, now) <==>
                 mem.manual.value.at < sched.value.lastEdge.value)
    ensures Decide(settings, mem, sched, now).paused <==>
      BasePaused(settings, mem, now) || SomeoneThere(settings, mem, now)
    ensures Decide(settings, mem, sched, now).reason == Some(ByActivity) <==>
              !BasePaused(settings, mem, now) && SomeoneThere(settings, mem, now)
  {
  }

  lemma LastEdgeDecides(s: Schedule, now: int, last: int, at: int)
    requires IsLastEdge(s, now, Some(last))
    ensures EdgeSince(s, at, now) <==> at < last
  {
  }

  // ------------------------------------------------------------------ when the answer can next change

  /** Until the next change, whatever was remembered, the answer stays the same record. */
  ghost predicate NextChangeSound(settings: Settings) {
    forall mem, now, t ::
      now <= t && (NextChangeAt(settings, mem, now).None? || t < NextChangeAt(settings, mem, now).value)
      ==> PauseState(settings, mem, t) == PauseState(settings, mem, now)
  }

  lemma SameEdges(s: Schedule, now: int, a: At, t: int, b: At)
    requires Agrees(s, now, a) && Agrees(s, t, b) && a.nextEdge.Some? && now <= t < a.nextEdge.value
    requires a.lastEdge.Some? && b.lastEdge.Some? && b.nextEdge.Some?
    ensures a.lastEdge == b.lastEdge && a.nextEdge == b.nextEdge
  {
    assert forall y :: now < y <= t ==> !EdgeEver(s, y);
  }

  lemma {:induction false} SameSide(s: Schedule, now: int, t: int)
    requires now <= t && forall y :: now < y <= t ==> !EdgeEver(s, y)
    ensures InsideEver(s, t) <==> InsideEver(s, now)
    decreases t - now
  {
    if now < t {
      SameSide(s, now, t - 1);
      assert !EdgeEver(s, t);
    }
  }

  /** Up to the next edge, the schedule's answer stands. */
  lemma ScheduleSteady(s: Schedule, now: int, t: int)
    requires Scheduled(s) && HasGap(s)
    requires NextEdge(s, now).Some? && now <= t < NextEdge(s, now).value
    ensures ScheduleAt(s, t) == ScheduleAt(s, now)
  {
    SearchAgrees(s, now);
    SearchAgrees(s, t);
    SameEdges(s, now, ScheduleAt(s, now).value, t, ScheduleAt(s, t).value);
    SameSide(s, now, t);
  }

  lemma SteadyAt(settings: Settings, mem: Memory, sched: Option<At>, now: int, t: int)
    requires now <= t
    requires var change := ChangeAfter(settings, mem, NextOf(sched), now); change.None? || t < change.value
    ensures Decide(settings, mem, sched, t) == Decide(settings, mem, sched, now)
  {
  }

  lemma ChangeBeforeEdge(settings: Settings, mem: Memory, next: int, now: int)
    requires now < next
    ensures var change := ChangeAfter(settings, mem, Some(next), now); change.Some? && change.value <= next
  {
  }

  lemma Steady(settings: Settings, mem: Memory, now: int, t: int)
    requires Scheduled(settings.schedule) ==> HasGap(settings.schedule)
    requires now <= t && (NextChangeAt(settings, mem, now).None? || t < NextChangeAt(settings, mem, now).value)
    ensures PauseState(settings, mem, t) == PauseState(settings, mem, now)
  {
    var s := settings.schedule;
    if Scheduled(s) {
      NextEdgeFound(s, now);
      ChangeBeforeEdge(settings, mem, NextEdge(s, now).value, now);
      ScheduleSteady(s, now, t);
    }
    SteadyAt(settings, mem, ScheduleAt(s, now), now, t);
  }

  lemma NextEdgeFound(s: Schedule, now: int)
    requires Scheduled(s) && HasGap(s)
    ensures NextEdge(s, now).Some? && now < NextEdge(s, now).value
  {
    SearchAgrees(s, now);
  }

  /** A schedule that never pauses: the day the search begins on moves at midnight, and the record with it. */
  lemma Unsteady(settings: Settings, now: int)
    requires Scheduled(settings.schedule) && !HasGap(settings.schedule)
    ensures var mem := Memory(None, None, None);
            && (NextChangeAt(settings, mem, now).Some? ==> now + DAY < NextChangeAt(settings, mem, now).value)
            && PauseState(settings, mem, now + DAY) != PauseState(settings, mem, now)
  {
    var s := settings.schedule;
    LastEdgesMove(s, now);
    NoEdgeInReach(s, now);
    OtherEdgeOtherAnswer(settings, ScheduleAt(s, now), now, ScheduleAt(s, now + DAY), now + DAY);
  }

  lemma LastEdgesMove(s: Schedule, now: int)
    requires Scheduled(s) && !HasGap(s)
    ensures LastEdge(s, now) != LastEdge(s, now + DAY)
  {
    LastEdgeIs(s, now);
    LastEdgeIs(s, now + DAY);
    LoMoves(s, now);
  }

  lemma LoMoves(s: Schedule, now: int)
    ensures Lo(s, now + DAY) == Lo(s, now) + DAY
  {
    assert Today(now + DAY) == Today(now) + 1;
  }

  lemma OtherEdgeOtherAnswer(settings: Settings, a: Option<At>, now: int, b: Option<At>, t: int)
    requires a.Some? && b.Some? && LastOf(a) != LastOf(b)
    ensures var mem := Memory(None, None, None); Decide(settings, mem, a, now) != Decide(settings, mem, b, t)
    ensures var mem := Memory(None, None, None); ChangeAfter(settings, mem, NextOf(a), now).Some? ==>
              ChangeAfter(settings, mem, NextOf(a), now) == NextOf(a)
  {
  }

  lemma NoEdgeInReach(s: Schedule, now: int)
    requires Scheduled(s) && !HasGap(s)
    ensures NextEdge(s, now).Some? ==> Hi(s, now) <= NextEdge(s, now).value && now + DAY < NextEdge(s, now).value
  {
    SearchJudged(s, now);
    SearchWithoutGap(s, now);
    NowInReach(s, now);
    assert now + DAY < Hi(s, now) by {
      NowInDay(s, now);
      assert (Today(now) + 9) * DAY <= Hi(s, now);
    }
    if NextEdge(s, now).Some? && NextEdge(s, now).value < Hi(s, now) {
      BoundarySees(s, now, NextEdge(s, now).value);
    }
  }

  /** nextChangeAt is sound exactly for no schedule and for a schedule with a gap. */
  lemma NextChangeSoundIff(settings: Settings)
    ensures NextChangeSound(settings) <==> (Scheduled(settings.schedule) ==> HasGap(settings.schedule))
  {
    if Scheduled(settings.schedule) && !HasGap(settings.schedule) {
      Unsteady(settings, 0);
    } else {
      forall mem, now, t | now <= t &&
        (NextChangeAt(settings, mem, now).None? || t < NextChangeAt(settings, mem, now).value)
        ensures PauseState(settings, mem, t) == PauseState(settings, mem, now)
      {
        Steady(settings, mem, now, t);
      }
    }
  }
}
