# The machine daemon's protocols

A model, in Dafny 4.11, of the small protocols inside FF Factory's machine daemon (`machine/`), and proofs of what they
promise. `dafny verify dfyconfig.toml` checks everything; there are no assumptions beyond those listed under "Left out".

| file | what it holds |
|---|---|
| `LineTail.dfy`, `HostOutput.dfy` | following an append-only file by lines, and a host's output across daemon restarts |
| `HostProtocol.dfy`, `HostRuns.dfy`, `HostLive.dfy`, `HostOther.dfy`, `HostTwice.dfy` | a session's messages through any number of agent hosts, commands in `in.jsonl` |
| `HostWatch.dfy`, `HostWatchRuns.dfy`, `HostWatchDue.dfy` | stopping hosts nobody follows, what every kill and every removal rests on, and what a look must do |
| `RunnerWorld.dfy` | CI listeners and their logs |
| `BenchRunners.dfy`, `RunnerRuns.dfy`, `RunnerTold.dfy`, `RunnerTicks.dfy`, `RunnerEnded.dfy` | pausing listeners for a timed run: the code, its runs, why no job is stopped, one tick listener by listener, and the leftovers it ends |
| `LoadGate.dfy`, `LoadGateRuns.dfy`, `LoadGateTold.dfy`, `LoadGateTicks.dfy` | suspending listeners under load, in the same four parts |
| `Schedule.dfy`, `PauseRules.dfy`, `PauseKeeper.dfy`, `PauseEvents.dfy` | the weekly schedule, the pause rules on top of it, the keeper's runs, and its answer by what happened |
| `Spans.dfy`, `BenchHistory.dfy`, `BenchHours.dfy`, `BenchInstants.dfy` | unions of spans, the bench queue's tickets, and what exclusive tickets cost per hour |
| `BenchRaise.dfy` | raising shared tickets an exclusive turn has passed |
| `PortalCalls.dfy`, `PortalEnds.dfy` | tool calls held across portal outages |
| `ProcessTree.dfy`, `Leftovers.dfy`, `LeftoverRuns.dfy`, `LeftoverGroups.dfy` | which processes workers left behind are ended, when, and in what order |
| `Frames.dfy`, `TextLines.dfy`, `MatLines.dfy`, `MatText.dfy` | the live view's frame stream, and a value written into a material's text |
| `Prelude.dfy`, `Sorting.dfy` | options, the stable sort |

Each protocol has the same three layers. The source's objects are classes whose methods change their fields, and its loops
are loops; every such method is proved equal to a function of the old state, or to compute what its contract says outright.
Everything outside the daemon is an explicit input: the bytes of a file, how many each read gives and which line throws when
it is taken, the answers of `open()`, of a process probe, a listing or a signal, what listeners do between any two steps of a
tick, the clock. The theorems are about those functions, over all inputs, and over
all finite runs of events where the source keeps state.

Where a promise of the source or its comments is false, the code is kept as it is and the exact condition is proved:

- The 17-day schedule search stands for the unbounded weekly schedule exactly when the schedule has a gap
  (`Schedule.SearchAgreesIffGap`); with all seven days on and start equal to end it takes the edge of its own reach for an
  edge, and so `nextChangeAt` is sound exactly for no schedule or one with a gap (`PauseRules.NextChangeSoundIff`).
- A daemon restart keeps every message exactly when nothing waits in the old daemon's memory and either the host lives on
  and has not closed or no message of `in.jsonl` is left to deliver (`HostRuns.RestartKeepsIff`); otherwise messages are
  lost (`HostRuns.RestartLosesUnread`, `HostRuns.RestartLosesWaiting`).
- Lines of `out.jsonl` can be lost while the daemon lives: a line that throws when it is taken ends the read, whose offset has
  moved (`HostOutput.ThrowSkips`, `HostOutput.ThrowJoins`). A read keeps what the daemon has forwarded right exactly when no
  line of it throws, or the last one does and what is begun behind it is what was begun before it (`HostOutput.ReadKeepsIff`).
- A listener can be stopped with a job in hand: when no listing shows a worker for it (none runs it, or only the one the timed
  run itself runs under, or the second listing is the cached first one) and its line has fallen out of the 64 KB of log that
  are read (`RunnerTicks.UntoldJobIsStopped`, `RunnerTicks.CachedHidesWorker`, `LoadGateTicks.UntoldJobIsSuspended`). For any
  listener and whatever happens meanwhile, exactly when a tick leaves it so is `RunnerTicks.StoppedWithJobIff` and
  `LoadGateTicks.SuspendedWithJobIff`. That no stopped listener has a job is proved of every run in which no step of the
  machine takes such a job's line out of reach, from what listeners write alone (`RunnerTold.StoppedHaveNoJob`,
  `LoadGateTold.SuspendedHaveNoJob`).
- A tick that has stopped listeners and then cannot list the processes again leaves them stopped and unrecorded: they stay
  stopped for good (`RunnerTicks.ATickLosesOne`), or are suspended twice (`LoadGateTicks.SuspendedTwice`); a gate that opens
  and cannot list them leaves them suspended while it stays open (`LoadGateTicks.AListenerIsStranded`). Exactly when a tick
  leaves everyone recorded is `RunnerRuns.RecordedIff` and `LoadGateRuns.RecordedIff`.
- A message can be given to two hosts when a teardown could not end the old one, or an adopting daemon takes one that has
  only started for gone: exactly when a line of the new `in.jsonl` begins at or after the old host's offset
  (`HostTwice.GivenTwiceIff`).
- The two looks before a kill are at a session, not at a process: a record that has come to name another process since the
  look before gets that process killed at its first look (`HostWatchRuns.KillsAProcessNotSeen`). Exactly when the look before
  saw the process killed is `HostWatchRuns.SawTheProcessIff`.
- Children are told to end before their parents inside one group only: a child precedes its parent exactly when both are of
  one group or the child's was begun first (`LeftoverGroups.ChildFirstIff`, `LeftoverGroups.ParentIsToldFirst`).
- A push of the frame parser that meets a bad length loses exactly the messages it had finished, so a stream with a bad
  length loses none exactly when that push finishes none (`Frames.LosesNothingIff`, `Frames.BadStreamDependsOnCuts`).
- `setMatValue` leaves every other property alone exactly when no entry of another name stands behind a header that says
  its list is empty (`MatText.SetFrame`), keeps a section's order exactly when all such entries come after the new one
  (`MatText.SetKeepsOrder`, `MatText.SetBreaksOrder`), and keeps line endings exactly when the text does not mix them
  (`TextLines.SplitJoinsBack`).

## Model

| member | source | states |
|---|---|---|
| `Tailing.LineTail.constructor` | machine/agentHost.ts:74-78 | a tail starts at its offset with no partial line and follows any file from there |
| `Tailing.HandOn` | machine/agentHost.ts:96-102 | the inner loop takes exactly the complete lines off the data, CR stripped and blank ones left out, up to one that throws, and keeps the unfinished rest |
| `Tailing.LineTail.Take` | machine/agentHost.ts:93-103 | one read of any size hands on exactly the lines it completes; a line that throws drops the rest of the read, offset moved and line begun as before |
| `Tailing.TakenFollowsIff` | machine/agentHost.ts:93-106 | after a read the tail has emitted exactly the non-blank complete lines of the bytes read so far iff no line threw, or the last did and what is begun behind it is what was begun before it |
| `Tailing.LineTail.Poll` | machine/agentHost.ts:86-109 | after a whole poll it stands as the reads leave it one by one, for any sizes of reads and any line that throws; it follows the file on unless a throw does harm, and has reached the size found unless a read gave nothing or a line threw |
| `Tailing.ScanIsSplit` | machine/agentHost.ts:96-102 | the raw lines with their line feeds and the partial line are the bytes again, and no raw line holds a line feed |
| `Tailing.LinesResume` | machine/agentHost.ts:80-83 | lines read up to a boundary and lines read from it are together the lines of the whole |
| `Tailing.WrittenIsRead` | machine/agentHost.ts:96-102 | lines written one after the other, with LF or CRLF, are read back as they were, without those of white space alone; a line not ended is not read yet |
| `Tailing.GrowthKept` | machine/agentHost.ts:86-103 | a tail that follows a file follows it across any growth |
| `Tailing.PositionResumes` | machine/agentHost.ts:81-83 | the position is always a line boundary, and a fresh tail from it emits exactly the remaining lines, however the first one read |
| `HostOutput.OutputReader.constructor` | machine/agentHost.ts:369-380 | an adopting daemon reads on from the saved offset |
| `HostOutput.OutputReader.Poll` | machine/agentHost.ts:566-569 | a poll forwards what its reads complete, reaches the size found unless a read gives nothing or a line throws, and saves its position: in the world of the runs below, reads and then a save |
| `HostOutput.PollIsReads` | machine/agentHost.ts:86-109 | a poll of the tail is a run of that world's reads, from any of its turns on |
| `HostOutput.OutputReader.SaveOffset` | machine/agentHost.ts:634-643 | the saved offset is the position, where the line now being written begins |
| `HostOutput.RunKeeps` | machine/agentHost.ts:559-569 | over every run of appends, reads that throw harmlessly or not at all, saves, detaches and crashes the daemon at work has forwarded exactly the lines it read, saved a boundary, and each earlier one forwarded all lines up to where the next began |
| `HostOutput.ReadKeepsIff` | machine/agentHost.ts:93-106 | a read keeps that exactly when no line of it throws, or one does harmlessly |
| `HostOutput.ThrowSkips` | machine/agentHost.ts:93-106 | the first of any two lines read at once throws: the other is never forwarded, and lies before the saved offset |
| `HostOutput.ThrowJoins` | machine/agentHost.ts:93-106 | a line read in two parts throws: the next line is forwarded with its first part in front |
| `HostOutput.NoLineSkipped` | machine/agentHost.ts:369-390 | over every run whose reads throw harmlessly or not at all, crashes in the middle of a read included, no line is skipped, and what is repeated is only a suffix of what one daemon had forwarded |
| `HostOutput.ExactlyOnce` | machine/agentHost.ts:497-502 | daemons that each detach, with reads that throw harmlessly or not at all, forward the lines of out.jsonl exactly once and in order |
| `HostProtocol.HostedSession.constructor` | machine/agentHost.ts:297-334 | a new session has no host, no command and nothing waiting |
| `HostProtocol.HostedSession.Adopt` | machine/agentHost.ts:369-390 | a new daemon goes on from the greatest number in in.jsonl and knows nothing of earlier pending sends |
| `HostProtocol.HostedSession.AppendCommand` | machine/agentHost.ts:553-557 | a command gets the next number and goes to the end of in.jsonl |
| `HostProtocol.HostedSession.SendCommand` | machine/agentHost.ts:422-422 | a message is appended and remembered with its number |
| `HostProtocol.HostedSession.Start` | machine/agentHost.ts:511-551 | a new folder begins with the message as command 1; a failed launch leaves no host running; a folder still in use changes nothing |
| `HostProtocol.HostedSession.SendMessage` | machine/agentHost.ts:392-429 | where a message goes: to the queue, to the running host, or to a new one |
| `HostOther.GivenWhileRunning` | machine/agentHost.ts:404-422 | in every run, while a host runs: a new message goes into its in.jsonl exactly when nothing waits and its agent is live or the message's run is the one it started with, otherwise to the end of the queue, behind a Stop |
| `HostOther.WaitsBehindStop` | machine/agentHost.ts:407-414 | in every run whoever waits while a host runs waits behind a Stop for that host |
| `HostOther.OtherRunNeverReachesHost` | machine/agentHost.ts:407-415 | a message of another run, given while the host that runs has no live agent, is never in that host's in.jsonl and never delivered by it or one before it, whatever follows |
| `HostOther.OtherRunGetsNewHost` | machine/agentHost.ts:407-415 | and where nothing is lost it waits, or a host launched later has delivered it or has it in its in.jsonl |
| `HostProtocol.HostedSession.OnClosed` | machine/agentHost.ts:699-714 | the sends numbered past `consumed` go ahead of all that waits, in order |
| `HostProtocol.HostedSession.End` | machine/agentHost.ts:732-748 | a host that is done is no longer running and its tree is being stopped |
| `HostProtocol.HostedSession.Teardown` | machine/agentHost.ts:755-783 | one teardown at a time |
| `HostProtocol.HostedSession.Settle` | machine/agentHost.ts:785-799 | once the tree is gone a new host carries what waited, in order; a folder still in use or a failed launch loses it |
| `HostProtocol.RunsIffLaunched` | machine/agentHost.ts:415-421 | without a host, a message or a finished teardown leaves one running exactly when one was launched; a failed launch leaves the session not live |
| `HostProtocol.HostedSession.Dispose` | machine/agentHost.ts:504-509 | a disposed session keeps nothing waiting |
| `HostLive.LiveTold` | machine/agentHost.ts:404-425 | after every run, what each step makes of whether the session is live: a message makes it so unless no host could be had for it; the end of a host ends that, but for a `closed` behind which messages are left to carry, and so does a launch that fails after a teardown; a restart goes by the record of a host that runs on |
| `HostLive.DisposedStartsNone` | machine/agentHost.ts:785-789 | a disposed session starts no host of itself and keeps nothing waiting, until the next message or a restart |
| `HostLive.RestartServes` | machine/agentHost.ts:369-408 | after any run, a message to a daemon that restarts over a dead host is, once the old tree is gone, the first command of a new host |
| `HostProtocol.HostProcess.constructor` | machine/agentHost.ts:916-918 | a host has consumed and delivered nothing at its start |
| `HostProtocol.HostProcess.Poll` | machine/agentHost.ts:944-1012 | a host carries out the commands that have come, in order, and counts the greatest number |
| `HostProtocol.HostProcess.Close` | machine/agentHost.ts:919-933 | its last line says how many commands it carried out |
| `HostRuns.RunKeeps` | machine/agentHost.ts:392-429 | one invariant of daemon, hosts and files kept by every event of every run |
| `HostRuns.ConsumedIsAPrefix` | machine/agentHost.ts:944-946 | in every run, restarts included, in.jsonl is numbered 1, 2, 3 and so on, and `consumed` is exactly the length of the prefix the host applied |
| `HostRuns.StoppingNeverRuns` | machine/agentHost.ts:755-799 | a session whose old tree is being stopped never has a running host, so startWaiting never discards messages for one |
| `HostRuns.AtMostOnceInOrder` | machine/agentHost.ts:699-714 | over every run, lossy ones included, in which a finished teardown has ended the old host, no message is delivered twice and none overtakes another |
| `HostTwice.OldHostIsGiven` | machine/agentHost.ts:765-799 | an old host still reading is given, of the new in.jsonl, the end of the line its offset lies in and then exactly the lines the new host is given from there on |
| `HostTwice.GivenTwiceIff` | machine/agentHost.ts:377-387 | no line is given to both exactly when no complete line of the new file begins at or after the old host's offset; one that has read nothing is given all |
| `HostRuns.NothingLost` | machine/agentHost.ts:512-557 | with launches that succeed and hosts that close, the messages given are, in order, those delivered by earlier hosts, those in in.jsonl and those waiting |
| `HostRuns.RestartKeepsIff` | machine/agentHost.ts:369-390 | exactly when a daemon restart loses no message, over a live host, a dead one or none |
| `HostRuns.RestartLosesUnread` | machine/agentHost.ts:381-387 | a restart over a dead host loses the message it had not read |
| `HostRuns.RestartLosesWaiting` | machine/agentHost.ts:369-390 | a restart loses a message that waited in the old daemon |
| `HostWatching.HostWatch.constructor` | machine/hostWatch.ts:242-250 | a fresh watch has seen nothing |
| `HostWatching.HostWatch.AwaitGone` | machine/hostWatch.ts:124-132 | waits in 200 ms steps until the process is gone or the time is up |
| `HostWatching.HostWatch.HostIdentity` | machine/hostWatch.ts:134-145 | same, other, gone or unknown, by probes and start time in the source's order |
| `HostWatchRuns.IdentifiedByTimes` | machine/hostWatch.ts:49-61 | an alive process with a known start time is the recorded host exactly when the record can be read and the process started at most 90 s before it and at most 5 s after, another program otherwise |
| `HostWatchRuns.IdentifiedWithout` | machine/hostWatch.ts:134-145 | any other is gone when it does not run or is found not to, and unknown otherwise |
| `HostWatchRuns.EveryKillTimely` | machine/hostWatch.ts:134-162 | in every run each kill directly follows a probe that finds the process alive and a start time at most 90 s before and 5 s after a readable record's |
| `HostWatching.HostWatch.EndHostTree` | machine/hostWatch.ts:152-164 | up to three identifications, a kill only after `same`, and the wait behind it |
| `HostWatching.HostWatch.StopOrphanHost` | machine/hostWatch.ts:290-313 | the stop of an orphan, its count forgotten and its folder removed only on success |
| `HostWatching.HostWatch.SweepFolder` | machine/hostWatch.ts:275-278 | a gone host's folder goes once it is old enough |
| `HostWatching.HostWatch.VisitOne` | machine/hostWatch.ts:259-281 | one folder's turn in a look, every branch |
| `HostWatching.HostWatch.TickOnce` | machine/hostWatch.ts:253-288 | a whole look, and the counts of what it did not see forgotten |
| `HostWatching.EndTreeShows` | machine/hostWatch.ts:147-164 | an attempt removes nothing and kills no other process; it says stopped only when the log ends with the pid not running or running another program |
| `HostWatching.FailedStopKeepsFolder` | machine/hostWatch.ts:290-313 | the folder is removed exactly after a successful stop |
| `HostWatchDue.StoppedIff` | machine/hostWatch.ts:152-164 | a tree counts as stopped exactly when the attempt's last answers show the pid not running or another program's |
| `HostWatchDue.SweptIff` | machine/hostWatch.ts:275-278 | a folder no host runs in goes exactly when it has no file or its last write is six hours old |
| `HostWatchDue.OrphanIff` | machine/hostWatch.ts:259-268 | a folder is an orphan's exactly when nobody follows its session, its record is of this protocol and names a process alive twice, started at most 90 s before the record's time and at most 5 s after |
| `HostWatchDue.OrphanTurn` | machine/hostWatch.ts:269-273 | an orphan's host is tried exactly when the session was counted before and still nobody follows it; a stop forgets the count, any other turn counts one more |
| `HostWatchDue.SecondLookTries` | machine/hostWatch.ts:253-288 | over every run, the look after one that saw an orphan and did not stop it tries it, exactly when it sees an orphan's too and is told again that nobody follows it |
| `HostWatching.TwoLooksBeforeAKill` | machine/hostWatch.ts:253-288 | over every run of looks a kill is for a session whose folder both this look and the look right before saw as an orphan's |
| `HostWatchRuns.SawTheProcessIff` | machine/hostWatch.ts:260-288 | the look before a kill probed the very pid exactly when both listings' records name it, saw it as this record's host exactly when the start read then fits this record too, and by the same record exactly when both name one pid and start |
| `HostWatchRuns.KillsAProcessNotSeen` | machine/hostWatch.ts:264-272 | a run that kills a pid no earlier look probed |
| `HostWatchRuns.EveryRemovalShown` | machine/hostWatch.ts:253-313 | in every run a folder is removed only right after a stop showed its process gone or another program's, or right after it was found old with no process recorded or the recorded one just shown so |
| `HostWatching.OrphanWasSeen` | machine/hostWatch.ts:260-269 | seen means: unfollowed, probed alive twice, and identified by its start time as that host |
| `HostWatching.EveryKillJustified` | machine/hostWatch.ts:155-162 | in every run each kill directly follows a probe and a start time that identify the pid as the recorded host |
| `RunnerWorld.ListenerLogLoop` | machine/benchRunners.ts:91-102 | the newest job or idle line of the tail decides; a full tail without one is idle, any other unknown |
| `RunnerWorld.MayBeStoppedIff` | machine/benchRunners.ts:95-119 | by its log a listener without a worker may be stopped exactly when the newest line about jobs says idle and is 10 s old, or job and is 12 minutes old, or no line read is about jobs and there is more of the log |
| `RunnerWorld.MachineCan` | machine/benchRunners.ts:6-25 | the machine is free: a listener not stopped may take a job, start its worker and finish it, and its log says so |
| `RunnerWorld.MachineMay` | machine/benchRunners.ts:6-25 | it may log any other line that is true, and lose a worker |
| `RunnerWorld.ListenerMayExit` | machine/benchRunners.ts:6-25 | any listener may vanish, and it alone |
| `RunnerWorld.StoppedCannot` | machine/benchRunners.ts:6-9 | a stopped listener can do none of it |
| `RunnerWorld.HappenAllStill` | machine/benchRunners.ts:253-258 | whatever the machine does, a stopped listener stays as it was and writes nothing |
| `RunnerWorld.HappenAllTold` | machine/benchRunners.ts:257-260 | listeners log their jobs: whatever happens, as long as no step takes an unseen job's line out of reach, such jobs go on showing in the log |
| `BenchRunners.Daemon.constructor` | machine/benchRunners.ts:168-172 | a daemon starts from the saved state |
| `BenchRunners.Daemon.Step` | machine/benchRunners.ts:195-282 | a tick, as a function of state, file, world, holder and everything that happens meanwhile, listings that fail and a cached second listing included; the worker the timed run runs under counts as none |
| `BenchRunners.Daemon.Free` | machine/benchRunners.ts:205-219 | a tick without a holder that can list the processes continues what still listens and clears the record |
| `BenchRunners.StopIdle` | machine/benchRunners.ts:234-252 | the first look: workerless listeners whose log rules a job out are stopped |
| `BenchRunners.LookAgain` | machine/benchRunners.ts:253-270 | the second look: a worker or a log that moved on continues the listener, the others are recorded |
| `BenchRunners.EndLeftoversLoop` | machine/benchRunners.ts:271-280 | leftovers of idle runners are ended, each once |
| `BenchRunners.EndedGrows` | machine/benchRunners.ts:271-280 | what a turn ended is only added to, each pid at most once |
| `RunnerEnded.TickEnds` | machine/benchRunners.ts:271-280 | after a tick under a timed run its list of ended leftovers is what it had of this turn and every listed leftover that can be signalled and of whose runner no listener in the listing used shows a worker but the timed run's own |
| `RunnerEnded.EndedWereDue` | machine/benchRunners.ts:271-280 | over every run whatever the daemon or its file says was ended was such a leftover at a tick of the run |
| `RunnerEnded.TickWrites` | machine/benchRunners.ts:202-283 | a tick that comes through writes what it knows, unless that is all it knew; without a timed run it then knows of no turn and nobody paused |
| `RunnerEnded.FileInStep` | machine/benchRunners.ts:195-283 | over every run whose ticks come through, the file says what the daemon knows: turn, paused and ended |
| `RunnerRuns.HeldTickGood` | machine/benchRunners.ts:226-270 | after a tick under a timed run that loses nobody whoever is stopped is recorded in memory and on disk, whatever raced with it, and has no job if jobs show at the second look |
| `RunnerRuns.RecordedIff` | machine/benchRunners.ts:226-270 | a tick leaves everyone stopped in the record exactly unless its second listing fails and one of those it had just stopped is still there |
| `RunnerRuns.FreeTickRuns` | machine/benchRunners.ts:205-219 | after a tick without one that can list the processes every listener recorded runs and none is recorded |
| `RunnerRuns.StoppedAreRecorded` | machine/benchRunners.ts:226-282 | over every run of ticks, restarts and listeners taking and finishing jobs in which no tick loses whom it stopped, a stopped listener is recorded in memory and on disk |
| `RunnerTold.StoppedHaveNoJob` | machine/benchRunners.ts:226-282 | and has no job, in every such run in which no step of the machine takes out of the log that is read a job no listing shows a worker for, or any job while a tick goes on |
| `RunnerTold.GentleIsTold` | machine/benchRunners.ts:253-262 | then the second look finds the line of every job taken before the stop, whatever the second listing shows |
| `RunnerRuns.NoneLeftStopped` | machine/benchRunners.ts:168-219 | after any run in which no tick loses whom it stopped, a tick that sees no holder and can list the processes leaves no listener stopped |
| `RunnerTicks.TickStops` | machine/benchRunners.ts:226-270 | how any listener that lives through a tick ends it, for everything that may happen meanwhile: running; or stopped once with the job it had at the stop, recorded, or not if the second listing fails; exactly by the two looks at it |
| `RunnerTicks.StoppedWithJobIff` | machine/benchRunners.ts:226-270 | a running listener ends a tick stopped with a job exactly when it has one at the stop, was not recorded, the first listing shows no worker but the timed run's own, its log rules a job out, the stop succeeds, and the second listing fails or shows none either and the log still says idle by the same line |
| `RunnerTicks.JobIsContinued` | machine/benchRunners.ts:253-266 | a listener that has a job when it is stopped, taken after the look at its log or before, runs again at the end of the tick, as long as no step takes a job out of sight |
| `RunnerTicks.LostForGood` | machine/benchRunners.ts:205-219 | whom a tick has lost stays stopped through every run of ticks without a holder, restarts and the machine |
| `RunnerTicks.ATickLosesOne` | machine/benchRunners.ts:253-256 | a run from a fresh daemon that loses a listener so |
| `RunnerTicks.CachedHidesWorker` | machine/benchRunners.ts:255-262 | a job whose worker started after the cached listing, its line out of the tail, is left stopped |
| `RunnerTicks.QuietTickIff` | machine/benchRunners.ts:226-270 | the same in terms of the machine before the tick, when nothing else happens |
| `RunnerTicks.UntoldJobIsStopped` | machine/benchRunners.ts:50-60 | two machines on which it does: no worker, or the timed run's own, and the job's line out of the tail |
| `LoadGate.GateKeeper.constructor` | machine/loadRunners.ts:87-91 | the gate starts from the saved state, without samples |
| `LoadGate.GateKeeper.Step` | machine/loadRunners.ts:118-143 | a tick: samples, the two means, closing or opening, and what follows, listings that fail included |
| `LoadGate.GateKeeper.ResumeLoop` | machine/loadRunners.ts:145-157 | every recorded listener that still listens is resumed and the record cleared; a listing that fails changes nothing |
| `LoadGate.GateKeeper.SuspendLoop` | machine/loadRunners.ts:159-203 | idle listeners are suspended, looked at again, and recorded or resumed; a listing that fails ends the tick there |
| `LoadGate.StopLoop` | machine/loadRunners.ts:166-184 | the first look suspends only listeners not held already |
| `LoadGate.AgainLoop` | machine/loadRunners.ts:185-201 | the second look resumes one that vanished, took a job or whose log moved on |
| `LoadGateRuns.SuspendIdleGood` | machine/loadRunners.ts:159-203 | after a closed tick that loses nobody each suspended listener is suspended once and recorded, and has no job if jobs show at the second look |
| `LoadGateRuns.RecordedIff` | machine/loadRunners.ts:159-203 | a closed tick leaves everyone suspended in the record exactly unless its second listing fails and one of those it had just suspended is still there |
| `LoadGateRuns.ResumeAllRuns` | machine/loadRunners.ts:145-157 | once the gate opens and the processes can be listed nothing recorded stays suspended |
| `LoadGateRuns.SuspendedOnce` | machine/loadRunners.ts:118-203 | over every run in which no tick loses whom it suspended the suspend count of a listener is at most one, and one suspended is recorded in memory and on disk |
| `LoadGateTold.SuspendedHaveNoJob` | machine/loadRunners.ts:159-203 | and has no job, in every such run in which no step of the machine takes a job that no worker runs out of the log that is read |
| `LoadGateTicks.SuspendedWithJobIff` | machine/loadRunners.ts:159-203 | exactly when a running listener ends a closed tick suspended, and when with a job, for everything that may happen meanwhile |
| `LoadGateTicks.TickCounts` | machine/loadRunners.ts:159-203 | a listener's suspend count grows by one exactly when the looks at it leave it suspended or the second listing fails, and it is recorded exactly if that does not |
| `LoadGateTicks.JobIsResumed` | machine/loadRunners.ts:185-199 | a listener that has a job when it is suspended is resumed in the same tick, as long as no step takes a job that no worker runs out of sight |
| `LoadGateTicks.SuspendedTwice` | machine/loadRunners.ts:185-187 | a run in which a failed second listing gets a listener suspended twice, and left suspended by an open gate |
| `LoadGateTicks.StrandedWhileOpen` | machine/loadRunners.ts:136-142 | whoever is suspended when the gate is open stays so as long as it is |
| `LoadGateTicks.AListenerIsStranded` | machine/loadRunners.ts:136-147 | a run that opens the gate, cannot list the processes, and leaves a listener so |
| `LoadGateTicks.QuietTickIff` | machine/loadRunners.ts:159-203 | the same in terms of the machine before the tick, when nothing else happens |
| `LoadGateTicks.UntoldJobIsSuspended` | machine/loadRunners.ts:166-184 | a machine on which it does |
| `LoadGateRuns.OpenGateSuspendsNone` | machine/loadRunners.ts:121-141 | after every run in which no tick loses or strands whom it suspended, a tick that leaves the gate open, or finds no gate and can list the processes, leaves none suspended |
| `LoadGateRuns.MeansExist` | machine/loadRunners.ts:109-131 | with ticks at most the slack apart, trimming never starves either mean |
| `LoadGateRuns.GateFollowsCpu` | machine/loadRunners.ts:109-141 | an open gate closes when the CPU was at or over the closing threshold throughout the closing window and not when it was under it throughout; a closed one opens when it was under the opening threshold throughout the opening window and not when it was at or over it |
| `LoadGateRuns.TicksMoveGate` | machine/loadRunners.ts:109-141 | so over ticks at most the slack apart that have gone on for the window |
| `LoadGateRuns.KeepSameIff` | machine/loadRunners.ts:161-164 | kept on record are exactly those whose pid is listed as a listener of that runner |
| `LoadGateRuns.FileInStep` | machine/loadRunners.ts:114-206 | over every run whose listings do not fail, the file says what the daemon knows: the gate, and who is suspended |
| `Schedule.TimesAreClean` | machine/pauseRules.ts:43-62 | any two times of a day and any weekdays are a schedule |
| `Schedule.WindowsAroundLoop` | machine/pauseRules.ts:74-88 | the windows of the 17 days around now |
| `Schedule.ScheduleAtLoop` | machine/pauseRules.ts:91-107 | sort, merge, flatten and search, as one function of schedule and time |
| `Schedule.SearchJudged` | machine/pauseRules.ts:95-106 | the answer depends on the coverage of the searched windows alone: inside, and the nearest changes of coverage on either side |
| `Schedule.SearchAgrees` | machine/pauseRules.ts:74-107 | with a gap: inside iff some window over all days contains now, lastEdge the greatest edge of the infinite union at or before now, nextEdge the least after it |
| `Schedule.SearchWithoutGap` | machine/pauseRules.ts:74-107 | without a gap there is no edge at all, and the search reports the start of its first day |
| `Schedule.SearchAgreesIffGap` | machine/pauseRules.ts:74-107 | so the search is right exactly when there is a gap |
| `Schedule.LastEdgeMonotone` | machine/pauseRules.ts:104-104 | for every enabled schedule the last edge found never moves back in time |
| `PauseRules.LatestEventWins` | machine/pauseRules.ts:140-162 | the later of the tray's word and the unbounded schedule's last edge decides, and input pauses what would run |
| `PauseRules.ScheduleSteady` | machine/pauseRules.ts:91-107 | up to the next edge scheduleAt gives the same record |
| `PauseRules.Steady` | machine/pauseRules.ts:164-171 | up to nextChangeAt pauseState gives the same record, and forever when it is undefined |
| `PauseRules.Unsteady` | machine/pauseRules.ts:164-171 | without a gap the record changes although nextChangeAt says it cannot |
| `PauseRules.NextChangeSoundIff` | machine/pauseRules.ts:164-171 | nextChangeAt is sound exactly for no schedule and for one with a gap |
| `PauseKeeping.PauseKeeper.constructor` | machine/pause.ts:40-62 | a daemon starts from what the last one saved |
| `PauseKeeping.PauseKeeper.Command` | machine/pause.ts:101-106 | a tray pause or unpause, saved before it is shown |
| `PauseEvents.TrayDecides` | machine/pauseRules.ts:122-146 | over any run of input, settings and restarts after a tray word: it decides the answer until an edge comes after it, of the schedule then in force or of one replaced since; a pause pauses, an unpause lets only a person's input pause; overtaken, it is no reason any more |
| `PauseEvents.OvertakesByEdge` | machine/pauseRules.ts:140-150 | for no schedule and one with a gap, such an edge is one of the unbounded schedule |
| `PauseEvents.TrayAtOnce` | machine/pauseRules.ts:122-128 | the tray's Pause pauses at once and its Unpause sets to work, with any settings and memory |
| `PauseKeeping.PauseKeeper.TakeInput` | machine/pause.ts:109-133 | a person's input, timed no later than now and dropped while the activity pause is off |
| `PauseEvents.InputPauses` | machine/pauseRules.ts:130-156 | a person's input, the activity pause on and the quiet time over, keeps the machine paused for the idle time then in force, whatever input, settings and restarts follow, until the tray speaks or the activity pause is turned off |
| `PauseEvents.QuietTime` | machine/pauseRules.ts:125-127 | the quiet time is the thirty seconds after the tray's last Unpause |
| `PauseKeeping.PauseKeeper.SetSettings` | machine/pause.ts:141-156 | new settings drop a word the old schedule had overtaken and input kept for a pause now off |
| `PauseEvents.InputForgotten` | machine/pause.ts:145-151 | once settings have turned the activity pause off, no input from before pauses the machine again, whatever settings, tray words and restarts follow |
| `PauseKeeping.PauseKeeper.Look` | machine/pause.ts:177-185 | told exactly when the report changed or a look was forced |
| `PauseKeeping.SameReportIff` | machine/pause.ts:180-183 | two reports are the same when nothing but their line of text differs |
| `PauseEvents.DetailAgrees` | machine/pauseRules.ts:140-161 | the line of text shows the answer's own reason, whether it pauses, and its times |
| `PauseKeeping.PauseKeeper.Save` | machine/pause.ts:200-207 | the file holds what the keeper holds |
| `PauseKeeping.SilencedOverRuns` | machine/pause.ts:101-156 | an overtaken or dropped word stays so over any run without the tray |
| `PauseKeeping.OvertakenForGood` | machine/pauseRules.ts:209-218 | once overtaken by an edge under the settings then in force, a tray word never decides again, whatever input, settings and restarts follow |
| `PauseKeeping.UnpauseIgnoresInput` | machine/pauseRules.ts:122-134 | for 30 s after an unpause no input pauses the machine |
| `Spans.MergeIsUnion` | machine/benchHours.ts:71-80 | the merge loop gives ordered, disjoint, non-touching spans over exactly the same instants |
| `BenchHistory.Tickets` | machine/benchHours.ts:50-69 | the book of tickets folded from the events in time order, each ticket listed once |
| `BenchHistory.TicketTells` | machine/benchHours.ts:49-68 | each field of a ticket (mode, what, session, sandbox, requests, waited time, take, grant, end) is that of its earliest line that tells it, in time and then line order, and blank exactly when no line does |
| `BenchHistory.FirstsAreEarliest` | machine/benchHours.ts:31-69 | a ticket's take, grant and end are the earliest its lines tell |
| `BenchHistory.MomentsIgnoreLineOrder` | machine/benchHours.ts:50-51 | files read in any order give the same moments |
| `BenchHours.Contend` | machine/benchHours.ts:117-130 | the other sandboxes alive in a hold, and the parts of it others waited through |
| `BenchHours.ChargeHold` | machine/benchHours.ts:131-137 | every hour's row changes by exactly the hold's overlap with that hour |
| `BenchHours.ChargeSpan` | machine/benchHours.ts:105-111 | every hour's row changes by exactly the span's overlap with that hour |
| `BenchHours.ChargeWaits` | machine/benchHours.ts:138-138 | waiting time is charged to the hours it lies in |
| `BenchHours.ChargeHolds` | machine/benchHours.ts:113-139 | after all holds each row says what the holds come to in its hour |
| `BenchHours.GrantedSpans` | machine/benchHours.ts:141-147 | the granted spans of the shared tickets, clipped to the window |
| `BenchHours.Union` | machine/benchHours.ts:71-80 | the union loop is the merge of the sorted spans |
| `BenchHours.UnionCovers` | machine/benchHours.ts:71-80 | the union is apart and covers exactly the instants of its input, sorted or not |
| `BenchHours.ChargeShared` | machine/benchHours.ts:148-148 | the union's spans are charged to the hours they lie in |
| `BenchHours.ApartCount` | machine/benchHours.ts:141-148 | the parts of apart spans in an hour add up to the instants of the hour they cover |
| `BenchHours.Account` | machine/benchHours.ts:87-148 | every row of the account: exclusive, idle and waiting time, holds and requests as sums over the tickets, shared time as the number of instants some shared ticket was held |
| `BenchHours.HoursConserve` | machine/benchHours.ts:105-111 | spans split over hours lose nothing: the hours' parts sum to the spans' lengths |
| `BenchHours.AccountConserves` | machine/benchHours.ts:113-139 | summed over the hours, exclusive time is the clipped hold lengths, idle time hold length times other sandboxes, waiting time what others waited through, and each request's time its own holds' |
| `BenchHours.SharedConserves` | machine/benchHours.ts:141-148 | summed over the hours, shared time is the number of instants of the window at which some shared ticket was held |
| `BenchHours.Hours` | machine/benchHours.ts:87-148 | the account of a history's lines is that of the tickets in its book, each once |
| `BenchHours.TicketsByLines` | machine/benchHours.ts:96-97 | which tickets are holds and which shared, by the lines alone: the mode the earliest line that tells one tells, and whether a line says granted, or taken |
| `BenchHours.AccountedTickets` | machine/benchHours.ts:90-97 | the account of a history is of exactly these tickets |
| `BenchHours.HourAddsUp` | machine/benchHours.ts:131-148 | in each hour the requests' times sum to the exclusive time, and shared time is at most one hour |
| `BenchInstants.RowByInstants` | machine/benchHours.ts:113-139 | every figure of a row, instant by instant: exclusive time counts the holds at each millisecond of the hour, waiting time the tickets of other sessions that wait at it under each hold, idle time the sandboxes each hold keeps idle, a request's time the holds booked under it |
| `BenchInstants.OthersAre` | machine/benchHours.ts:117-126 | the sandboxes a hold keeps idle: those other than its own in which a ticket of another session was taken before the hold was over and ended after it had begun |
| `BenchInstants.SharedByInstants` | machine/benchHours.ts:141-148 | a row's shared time counts the instants of its hour at which some shared ticket was held |
| `BenchInstants.HoldsByInstants` | machine/benchHours.ts:131-136 | a row's holds are those held at some instant of its hour |
| `BenchInstants.JoinedConcat` | machine/benchHours.ts:119-119 | requests joined with commas: two lists one after the other join to the first's text, a comma and the second's |
| `BenchInstants.ReqTold` | machine/benchHours.ts:119-119 | a hold is booked under its requests joined, or under a dash when they come to no text |
| `BenchRaise.PassedShared` | machine/benchRaise.ts:62-79 | each waiting shared ticket keeps its mark or gets one exactly when passed, and no other ticket has one |
| `BenchRaise.PassedByIff` | machine/benchRaise.ts:75-76 | a passing ticket is found exactly when a holder does not ride along or a later exclusive one outranks it |
| `BenchRaise.PassedExactly` | machine/benchRaise.ts:43-76 | what passes a ticket, told by the tickets alone: a holder, or a later one that outranks it, unless the ticket is a life ticket of the exclusive one's own session or in one of its own sandboxes |
| `BenchRaise.MarkedExactly` | machine/benchRaise.ts:66-78 | a look marks exactly the waiting shared tickets marked before or so passed |
| `BenchRaise.OrderIsTotal` | machine/benchState.ts:59-66 | any two tickets sort one before the other: by priority, urgent first and low last, then by place, then by number |
| `BenchRaise.OrderIsStrict` | machine/benchState.ts:59-66 | no ticket sorts before itself, and the order is transitive |
| `BenchRaise.TimedAre` | machine/benchRaise.ts:88-88 | the sessions with an exclusive ticket of their own that is not revoked |
| `BenchRaise.RaisedSessions` | machine/benchRaise.ts:87-100 | the raised sessions, and the list of exactly the tickets raised for |
| `BenchRaise.RaiseIsFair` | machine/benchRaise.ts:87-100 | a session is raised exactly when a passed ticket of it waits, it has no live exclusive ticket and is below urgent; it keeps its requests and old priority; any other is untouched |
| `BenchRaise.RaisedToTop` | machine/benchRaise.ts:81-100 | a raisable passed ticket has the top rank |
| `BenchRaise.ExclusiveKeepsRank` | machine/benchRaise.ts:88-93 | no live exclusive ticket's rank changes |
| `BenchRaise.RankNeverWorse` | machine/benchRaise.ts:87-100 | no ticket's rank gets worse |
| `BenchRaise.UnraisedUntouched` | machine/benchRaise.ts:87-100 | sessions without a passed ticket, or with a live exclusive one, stand as they stood |
| `BenchRaise.RaisedGoesFirst` | machine/benchState.ts:59-66 | a raised ticket sorts before every live exclusive ticket taken after it, and before an earlier one exactly when that is below urgent |
| `BenchRaise.UnraisableKeepsOrder` | machine/benchRaise.ts:81-93 | a ticket without a session, or of a session with a live exclusive ticket, keeps its order |
| `BenchRaise.NoLaterExclusiveFirst` | machine/benchRaise.ts:1-11 | marked or not, a waiting shared ticket of a raisable session sorts before every later exclusive ticket it does not ride along with |
| `BenchRaise.MarkLasts` | machine/benchRaise.ts:70-74 | over the looks a mark is the same while its ticket waits |
| `BenchRaise.MarkNeedsWaiting` | machine/benchRaise.ts:69-69 | a mark goes at the first look that does not see its ticket wait |
| `BenchRaise.PassedStaysFirst` | machine/benchRaise.ts:53-100 | once passed, a ticket sorts first at every look while it waits |
| `PortalCalls.PortalCalls.constructor` | machine/portalCalls.ts:42-45 | nothing pending at first |
| `PortalCalls.PortalCalls.SendUnsent` | machine/portalCalls.ts:101-108 | the unsent calls go out in order until the link says it is closed |
| `PortalCalls.PortalCalls.Call` | machine/portalCalls.ts:47-67 | a call that is not held fails at once on a closed link, any other joins the queue's end and is sent if the link is open |
| `PortalCalls.PortalCalls.LinkUp` | machine/portalCalls.ts:69-72 | a new link sends what is unsent |
| `PortalCalls.PortalCalls.LinkDown` | machine/portalCalls.ts:74-85 | held calls become unsent, other sent calls fail, the order stays |
| `PortalCalls.PortalCalls.Finish` | machine/portalCalls.ts:53-59 | an answer or a timer settles its call if it is still pending |
| `PortalCalls.DropSettles` | machine/portalCalls.ts:74-85 | a dropped link settles exactly the sent calls that are not held; all others stay, unsent and in order |
| `PortalCalls.SendCarries` | machine/portalCalls.ts:101-108 | sending keeps the sent calls a prefix and puts each on the link once, in order |
| `PortalCalls.RunKeeps` | machine/portalCalls.ts:47-108 | one invariant of queue, link and settlements kept by every interleaving |
| `PortalCalls.SentIsPrefix` | machine/portalCalls.ts:101-108 | in every run the sent calls are a prefix of the pending ones |
| `PortalCalls.LinksCarryInOrder` | machine/portalCalls.ts:69-108 | in every run each link carries each call at most once, in the order made |
| `PortalCalls.CallsSettleOnce` | machine/portalCalls.ts:47-94 | in every run each call is pending or settled, never both, settles once, and a held one never by the link |
| `PortalEnds.SettledHow` | machine/portalCalls.ts:47-94 | over every run, exactly how calls have ended: by an answer or a timer that came while they were pending, by the loss of a link they had gone out on unless held, or at once, unless held, when the link was not open |
| `PortalEnds.LinkEnds` | machine/portalCalls.ts:69-85 | each loss of a link leaves on record what it carried, and the next one begins with nothing |
| `PortalCalls.HeldSurvivesDrop` | machine/portalCalls.ts:74-78 | a link drop settles no held call |
| `PortalCalls.UpCarriesAll` | machine/portalCalls.ts:69-72 | a link that comes up and stays open carries every pending call |
| `PortalCalls.HeldGoesAgain` | machine/portalCalls.ts:69-85 | a held call of a lost link goes out on every later link that comes up and stays open, whatever happens in between, until an answer or a timer ends it |
| `PortalCalls.WaitsThrough` | machine/portalCalls.ts:47-108 | a held call stays pending through any events that are not its own answer or timer |
| `ProcessTree.Spare` | machine/leftovers.ts:463-472 | the worklist ends on any listing, cyclic ones included; it adds exactly what parent links reach past what is spared already |
| `ProcessTree.SpareEditors` | machine/leftovers.ts:473-473 | what is spared for interactive editors is exactly what parent links reach from them |
| `ProcessTree.DepthLoop` | machine/leftovers.ts:594-602 | the walk up the parents ends on any listing and counts the processes it meets |
| `ProcessTree.ChildrenFirst` | machine/leftovers.ts:593-604 | inside one group, on an acyclic listing: every child is told to end before its parent, and everything to end once |
| `ProcessTree.End` | machine/leftovers.ts:603-620 | SIGTERM in that order, SIGKILL to what still runs, and what outlives that is stuck |
| `ProcessTree.StillRunSome` | machine/leftovers.ts:606-619 | a second signal goes only to what was to end and still runs under the same pid and command line |
| `Leftovers.FindCandidates` | machine/leftovers.ts:463-518 | the candidates are exactly the listed processes with a claim that are not spared, each once |
| `Leftovers.FindSpared` | machine/leftovers.ts:462-482 | spared are exactly the daemon and its parents, what interactive editors reach, and what protected processes reach past the daemon's own |
| `Leftovers.LeftoverReaper.constructor` | machine/leftovers.ts:401-419 | a fresh daemon remembers nothing |
| `Leftovers.LeftoverReaper.SetClocks` | machine/leftovers.ts:519-525 | a session not live starts or keeps its clock, a live one has none |
| `Leftovers.LeftoverReaper.Judge` | machine/leftovers.ts:530-577 | each candidate's count, orphan clock and CPU time, and which ones end |
| `Leftovers.LeftoverReaper.Forget` | machine/leftovers.ts:578-580 | what the look did not see is forgotten |
| `Leftovers.LeftoverReaper.Look` | machine/leftovers.ts:452-580 | the look itself, up to what is chosen, as a function of memory and listing |
| `Leftovers.LeftoverReaper.EndAll` | machine/leftovers.ts:586-587 | the groups are ended one after another, each with its SIGTERMs and then its SIGKILLs |
| `Leftovers.LeftoverReaper.Run` | machine/leftovers.ts:452-588 | a whole look: its choice by groups, every signal sent in order, and the memory after it |
| `LeftoverGroups.GroupsAre` | machine/leftovers.ts:574-576 | a session's chosen make one group and each orphan its own, members in order, groups in the order of their first members |
| `LeftoverGroups.SignalledWasChosen` | machine/leftovers.ts:586-612 | every pid signalled is of a process chosen |
| `LeftoverGroups.ChosenIsSignalled` | machine/leftovers.ts:586-604 | and every process chosen gets a SIGTERM |
| `LeftoverGroups.ChildFirstIff` | machine/leftovers.ts:574-604 | on an acyclic listing a child gets its SIGTERM before its parent exactly when both are of one group or the child's was begun first |
| `LeftoverGroups.LookTellsChildFirstIff` | machine/leftovers.ts:574-604 | the same of the signals of every look of every run |
| `LeftoverGroups.ParentIsToldFirst` | machine/leftovers.ts:565-587 | a look under a pause that tells a worker's starter first, and the player it started after it |
| `LeftoverGroups.RunIsATurn` | machine/leftovers.ts:578-588 | the memory after a whole look is a turn's of the runs below |
| `LeftoverGroups.SignalsSpareEditors` | machine/leftovers.ts:462-489 | no signal of any look goes to the daemon, its parents, an interactive editor or anything reached from one |
| `LeftoverGroups.SignalsNeedTwoLooks` | machine/leftovers.ts:537-571 | each signal goes to a process the look before saw too, by pid and command line |
| `Leftovers.LeftoverReaper.End` | machine/leftovers.ts:591-620 | ending a group, and noting with the time what SIGKILL did not end |
| `LeftoverRuns.CountIsStreak` | machine/leftovers.ts:537-540 | a process's count is the number of latest looks in a row that saw it by pid and command line |
| `LeftoverRuns.ClockIsStreak` | machine/leftovers.ts:519-525 | a session's clock started at the first of the latest looks in a row that saw its leftovers and its worker not live |
| `LeftoverRuns.SessionLeftoverEnds` | machine/leftovers.ts:318-334 | with no pause forcing it, a session's leftover ends exactly when two consecutive looks saw it, every look since the clock began saw the worker not live, its grace and any check-in's grace have passed, and nothing else keeps it |
| `LeftoverRuns.TwoLooksAlways` | machine/leftovers.ts:565-571 | even a pause ends only what the look before saw too and whose start time is known |
| `LeftoverRuns.EditorsAreSpared` | machine/leftovers.ts:462-489 | no look chooses the daemon's own processes, an interactive editor or anything reached from one |
| `LeftoverRuns.OrphanEndsLate` | machine/leftovers.ts:550-560 | an orphan that ends was first seen so at an earlier look at least ten minutes ago, and no look since saw an owner |
| `LeftoverRuns.OrphanEndsIff` | machine/leftovers.ts:347-355 | exactly when an orphan ends, no pause forcing it: two looks in a row saw it, no starter, remote lease or live sandbox is seen, the stretch of looks that saw it so began at least ten minutes ago, and nothing else keeps it |
| `LeftoverRuns.StuckIsLeftAlone` | machine/leftovers.ts:572-573 | what SIGKILL did not end is left alone for an hour while every look sees it |
| `Frames.FrameParser.constructor` | machine/live.ts:144-145 | nothing buffered at first |
| `Frames.FrameParser.Push` | machine/live.ts:147-159 | a push parses the kept bytes and the chunk; on a bad length it yields nothing and keeps the bytes from there |
| `Frames.ParseEncoded` | machine/live.ts:147-159 | parsing undoes encoding and keeps exactly the incomplete tail |
| `Frames.BadFromItsHeader` | machine/live.ts:147-159 | a stream is found bad exactly from the fifth byte of the header that tells the bad length, after all messages before it |
| `Frames.ParseLosesNothing` | machine/live.ts:147-159 | every parse accounts for every byte: the messages' encodings and the rest are the buffer again |
| `Frames.ChunksMakeNoDifference` | machine/live.ts:147-159 | however a stream is cut, the parser gives what parsing it whole gives, and throws exactly when that meets a bad length |
| `Frames.AnyCutting` | machine/live.ts:143-159 | any cutting of a well-formed stream yields the encoder's messages in order |
| `Frames.ThrowLosesItsPush` | machine/live.ts:151-153 | what comes out of a stream with a bad length is what the chunks before the throwing one gave |
| `Frames.LosesNothingIff` | machine/live.ts:147-159 | for every stream with a bad length: lost are exactly the messages the throwing push had finished, so a cutting loses none exactly when that push finishes none |
| `Frames.BadStreamDependsOnCuts` | machine/live.ts:151-153 | so for every message right before a bad length, one cutting delivers it and another does not |
| `TextLines.SplitJoinsBack` | machine/matText.ts:52-53 | splitting and joining gives the text back exactly when it does not mix line endings |
| `TextLines.SplitOfJoin` | machine/matText.ts:53-70 | lines joined with one ending split into the same lines |
| `MatLines.SavedIff` | machine/matText.ts:54-54 | the line that says a material follows: its key and white space |
| `MatLines.DeepIff` | machine/matText.ts:59-59 | the lines of the part under it: indented by three spaces or more, or blank |
| `MatLines.HeadIff` | machine/matText.ts:60-60 | a section's header: its key indented by four spaces, whatever follows |
| `MatLines.EmptyListIff` | machine/matText.ts:67-67 | a header whose list is empty: a colon and `[]`, white space at most between and behind |
| `MatLines.NameIff` | machine/matText.ts:51-51 | names: a letter or underscore, then letters, underscores and digits |
| `MatLines.EntryIff` | machine/matText.ts:75-76 | an entry of that name and value: exactly the dash, the name, a colon and a space, the value |
| `MatText.FindHead` | machine/matText.ts:58-64 | the first header of the section among the deeper lines |
| `MatText.SetInSection` | machine/matText.ts:72-86 | the entry of that name replaced, or a new one before the first greater name |
| `MatText.SetMatValue` | machine/matText.ts:50-87 | the whole edit, errors included |
| `MatText.SetCases` | machine/matText.ts:66-86 | exactly one entry line is replaced or inserted, an empty `[]` header rewritten aside; every other line stays |
| `MatText.SetReads` | machine/matText.ts:76-86 | the value reads back as written, and `was` is what a lookup gave before |
| `MatText.SetElsewhere` | machine/matText.ts:66-86 | what every other lookup gives after an edit, in all sections |
| `MatText.SetFrame` | machine/matText.ts:46-87 | every other property's lookup is unchanged exactly when no stray entry stands behind an empty header |
| `MatText.SetTwice` | machine/matText.ts:74-82 | writing the same value again changes nothing and reports it as the old one |
| `MatText.SetKeepsOrder` | machine/matText.ts:66-86 | after an edit the section is in name order exactly when it was before and, behind a header that said it was empty, every entry comes after the new one |
| `MatText.SetBreaksOrder` | machine/matText.ts:66-70 | an edit that breaks the order |
| `MatText.SetKeepsEndings` | machine/matText.ts:46-87 | on text with one line ending the edit is the edit of its lines, and the ending stays |

## Left out

- Wiring of timers, sockets and dependencies (`machine/daemon.ts`), real I/O, signals, process listings and their
  parsing: their results are inputs.
- Local time is a uniform grid of 1440-minute days: daylight-saving shifts and irregular calendars are not modelled.
- Times are whole milliseconds; a history line's fractional seconds and JSON or date parsing are not modelled.
- Log lines, message texts, `detail` strings beyond the values they show, tray views and the glance records.
- UTF-8 decoding and Unicode white space: lines are bytes or characters, and white space is ASCII.
- `machine/pauseRules.ts` cleanSettings and the migration of old pause files: settings enter the model cleaned.
- Host protocol: a finished teardown means that the host's process has ended; the `failed`, `delta` and permission
  messages, images and attachments are not modelled.
- HostRuns.AtMostOnceInOrder: does not cover a teardown that could not end the old host or a host still starting at an
  adoption, because the source then gives messages to two hosts; `HostTwice.GivenTwiceIff` says exactly when.
- HostRuns.NothingLost: does not cover a host that dies without `closed`, a failed launch, `endNow`, dispose or an
  adopting daemon, because the source loses messages there; `HostRuns.AtMostOnceInOrder` and, for restarts, the exact
  condition `HostRuns.RestartKeepsIff` say what holds then.
- CI runners: ticks are atomic against a daemon crash; SIGCONT and resume succeed (SIGSTOP and suspend may fail); a process
  listing that does not fail shows every listener and the one worker under it, whether that is the timed run's own is an
  input, and no pid passes from one runner to another; a tick's first listing is of its start or later; the load gate has
  its uncached listing; the Windows branch that only logs, and the regular expressions of log lines.
- RunnerTicks.TickStops: is about listeners that live through the tick; one that exits is not there after it.
- RunnerTicks.StoppedWithJobIff: likewise.
- LoadGateTicks.SuspendedWithJobIff: likewise.
- The load gate's closing and opening thresholds imply no least time between them, and none is claimed.
- Bench accounting is proved before rounding to seconds; the row filter, the cap on rows and the order of `byRequest`.
- Bench tickets are named by their numbers, and the sandbox and life-ticket names `ridesAlong` compares are given, not
  parsed from paths; `editorSessions` only computes a maximum. bench_queue.py's grant decisions are another repository's.
- BenchRaise.RaisedGoesFirst: order facts are for tickets whose place is their number; a shared group's place is the
  queue's own. The priorities given carry no raise of an earlier look, as the daemon computes them anew each time.
- Portal calls are named by the order they were made, which any unique ids can be; how long a timer runs is not modelled.
- Leftovers: how a process is recognised (environment, lease, temp path, arguments, kind) is an input; each pid is listed
  once; lock files and reports are not modelled.
- Material text: the value's text is an input without line breaks or outer blanks (`unityFloat` and number checks are not
  modelled), and property names compare by character code.
- `machine/editorBenchGate.ts`, `machine/review.ts`, `machine/attachments.ts`, `machine/pauseStop.ts`, Steam, Firefox, gh
  and mac dialogs, e2e fixtures: easy members or servers that are not shown.
