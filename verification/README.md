# Vamoose workflow engine in Dafny

Vamoose books time off on a calendar and drives each booking through a small workflow: create a hold,
wait for approvals and delays, notify the team, note, message, file leave, cancel. A command creates the
hold and walks the first steps; a polling daemon advances the run gate by gate and stores a write-ahead
cursor (`step`, `resume`, `done`) in a watch file, so that a crash resumes instead of replaying. This
project models that engine as a state machine over its atomic actions, models the daemon as a class over
one watch file shared by all holds, and proves what the design promises about whole runs. Around it stand
the coverage ledger, the single-use OAuth state stores, the schedule firer, the team fan-out and the
working-day counter.

## How the model is laid out

- `Calendar`, `Guards`, `Workflows`: the data, the `when` guards and the step graph. `CycleCheck` and
  `Validation` are the loops that decide which definitions are accepted; the accepted ones are also written out
  on the fields of the steps, without the checks.
- `Protocol`: one hold's run. Each action (an effect, a write of the watch file, an invite, the
  end-of-pass save) is one step; `Begin` starts a poll with everything it reads from outside, `Act`
  performs the next action, and `Crash` may come between any two, keeping only the file, the calendar and
  the history. `Execute` runs any sequence of these inputs.
- `Polls`: what one poll comes to, told without the machine: which outcome the replies and the clock give, where
  each outcome's branch starts, what the walk of that branch performs and where it stops, and exactly when the
  hold leaves the watch file. `Templates` follows four bundled definitions, in full, from creation through a poll.
- `Forward`, `Progress`, `Refinement`, `Acknowledged`, `Timing`, `Replies`, `Gates`: whole-run theorems about
  that machine. `Refinement` compares a run with a machine that never crashes, `Acknowledged` does so without
  any assumption on the guards.
- `Clocks`: the clock. A run is real when its polls read one clock that never runs back, and the weekdays one
  walk meets, step after step, are those of that clock; a span bounds how many midnights a walk may last over.
- `Routes`, `RouteRuns`: the ways through a definition, as a relation on static places, which carry the
  weekdays and the attendee count of their walk. Every run follows routes, and every route is followed by some
  real run, so a promise about all runs turns into a condition on the definition. `EffectOrder`, `ExactGates`
  and `NotifyOrder` give that condition, in both directions and for every span, for the three promises that
  Validate alone does not secure, and `Witnesses` shows accepted definitions that break them.
- `WatchList`, `Histories`, `Daemons`: the watch file, the moments of its history and what holds over all of
  them, and the daemon. Each method of `Daemon` is imperative, performs one real action at a time and is
  proved to move exactly one hold's machine; its ghost `trace` notes every moment with all that is outside
  the process, and for each hold the order it was created with and every input its machine took since, so what
  a crash leaves at any point is an element of the trace, and `Restart` makes the next process from any such
  element.
- `Coverage`, `LedgerLock`, `StateStores`, `Schedules`, `FanOut`, `Workdays`: the smaller machines.

What the code reads from outside is a parameter: the clock, weekdays, replies, failures of steps, of
invites and of providers. Durations and times are nanoseconds, emails compare by ASCII lower case.

## Where the code falls short of what it says

- The comment at cmd/daemon.go:183-187 promises that a crash repeats a single step at most. A skipped step writes
  no checkpoint, so when a guard changes its answer between two polls, a step skipped before the crash can run
  after a later one, which then repeats (`Witnesses.AcceptedWorkflowRepeatsOutOfOrder`).
  `EffectOrder.EffectOrderExactly` says exactly which definitions can do so, given how many midnights a walk may
  last over, and `Acknowledged.AcknowledgedEffectsAreCrashFree` what holds for all. The span matters: a note on
  working days before a note on Fridays can be overtaken only by a walk that sleeps for five midnights
  (`Witnesses.OnlyLongWalksRepeatFridays`), while a guard on the attendee count can change between two polls of
  one day.
- Validate compares file order only, so an accepted workflow may jump over its approval to a notify step.
  `NotifyOrder.EarlyNotifyExactly` says exactly which ones can (`Witnesses.AcceptedWorkflowNotifiesEarly`).
- The first walk stores the person invited at creation as the approver of whatever gate it stops at, which
  is somebody else's gate when a jump skips the first approve step. `ExactGates.GateSafetyExactly` gives the
  exact condition (`Witnesses.AcceptedWorkflowAsksTheWrongPerson`).
- A failed invite leaves the item at the new gate with the previous approver, and the next polls ask that
  person. `ExactGates.GateSafetyUnderFailingInvites` gives the exact condition; the bundled two-level template
  does not meet it (`Witnesses.TwoLevelCrossesOnTheManagersWord`).
- Validate accepts a timeout of zero or less, which never expires (`Witnesses.AcceptedTimeoutNeverExpires`,
  `Gates.NeverExpires`, `Gates.ExpiresExactly`).
- A schedule poll that dies after running the due schedules and before saving runs them again, however soon the
  next poll comes (`Schedules.LostRunRepeats`). Each lost run is one extra fire (`Schedules.LostRunsAreExtra`),
  and `Schedules.ApartDespiteDeaths` says exactly when fires stay an interval apart nevertheless.
- The comment of Validate speaks of at most one approve step; the code accepts chains, and so does the model.
- A schedule without a positive interval fires at every poll (`Schedules.NoIntervalFiresEveryPoll`).
- Working-day windows that meet during a working day count it twice (`Workdays.AdjacentWindowsAdd`).

## Model

| member | source | states |
|---|---|---|
| Calendar.ReplyOf | internal/calendar/calendar.go:112-129 | The reply that counts is that of the first attendee with the email; nobody listed means no reply. |
| Calendar.SameEmailExactly | internal/calendar/calendar.go:112-129 | Two emails compare equal if and only if they are as long and at each place have one character or the two cases of one letter. |
| Calendar.RepliesIgnoreSpelling | internal/calendar/calendar.go:112-129 | Changing the case of letters in the email asked for, or in those listed, leaves the reply. |
| Calendar.FirstRequired | cmd/check.go:59-69 | The attendee treated as the approver is the first required one, if any is required. |
| Guards.AddRange | internal/workflow/workflow.go:258-263 | The range loop ends and adds exactly the days from the low to the high weekday, both included, wrapping past Saturday. |
| Guards.ParseDays | internal/workflow/workflow.go:238-269 | From the text: a day set is refused exactly when some piece between the commas is unreadable or none names a day; otherwise exactly the named days result. |
| Guards.SplitJoins | internal/workflow/workflow.go:240 | The pieces between the commas hold no comma and join to the text again. |
| Guards.TrimTakesSpace | internal/workflow/workflow.go:241 | Trimming a piece takes white space off its two ends and nothing else. |
| Guards.TokenReads | internal/workflow/workflow.go:242-245 | A trimmed piece is empty, a day without a dash, or the two sides of its first dash. |
| Guards.ParseDayExactly | internal/workflow/workflow.go:214-233 | A name reads as a weekday if and only if it is that day's three letters, in either case. |
| Guards.DaySetExactly | internal/workflow/workflow.go:238-269 | The day set holds exactly the days some piece names. |
| Guards.WellFormedCanHold | internal/workflow/workflow.go:195-211 | A guard that passes the checks allows some weekday with some number of attendees, both of which are given. |
| Guards.WellFormedExactly | internal/workflow/workflow.go:195-211 | With bounds that are not negative, a guard passes the checks if and only if it allows some weekday with some number of attendees. |
| Guards.AllowedCounts | internal/workflow/workflow.go:177-192 | A guard with a maximum allows, on a day it names, none above the maximum and exactly max - min + 1 counts, none at all when the bounds cross; without a maximum all from the minimum on; on any other day none. |
| Workflows.JumpTargets | internal/workflow/workflow.go:448-468 | The grown list holds each edge target of the step once and nothing else. |
| Workflows.EdgeExactly | internal/workflow/workflow.go:448-513 | Told by names: an approve step leads where its acceptance, its refusal or, with a timeout, its expiry goes on, every other step where the flow goes on, and an outcome without a branch goes on like the flow. |
| Workflows.IndexFrom | internal/workflow/workflow.go:471-481 | The index found is the first step with the id, and -1 means there is none. |
| Workflows.TargetsLand | internal/workflow/workflow.go:396-405 | In an accepted definition every branch and explicit next lands on the one step of that name or ends the flow; only a step without them falls through. |
| CycleCheck.Visit | internal/workflow/workflow.go:424-433 | The coloured visit of an unseen step ends; it reports only real cycles, and otherwise keeps gray the current path and black a set closed under targets, in finishing order. |
| CycleCheck.HasCycle | internal/workflow/workflow.go:416-440 | The search answers true if and only if the step graph has a cycle, and otherwise yields a reverse topological order of all steps. |
| CycleCheck.TopologicalOrderExcludesCycles | internal/workflow/workflow.go:412-415 | A graph with such an order has no cycle. |
| Validation.CheckStep | internal/workflow/workflow.go:295-385 | One turn of the step loop finds the first problem of the step in the order of the checks and keeps the seen ids and the approve count right. |
| Validation.CheckSteps | internal/workflow/workflow.go:293-385 | The loop finds the first faulty step, or counts the creator and finds the first approve and the first notify step. |
| Validation.CheckTargets | internal/workflow/workflow.go:396-405 | The first unresolvable branch or next target is reported, and no report means all resolve. |
| Validation.Validate | internal/workflow/workflow.go:285-410 | A definition is accepted if and only if its fields fit, the absence of cycles included, and a fault names the first check that fails. |
| Validation.AcceptedExactly | internal/workflow/workflow.go:285-410 | The accepted definitions, written out on the fields of the steps without the checks: both directions. |
| Validation.FirstProblemExactly | internal/workflow/workflow.go:293-385 | The problem reported of a step is one that describes it, and no other that describes it comes earlier in the order of the checks: if and only if. |
| Validation.AcceptedStepsAreWellFormed | internal/workflow/workflow.go:293-385 | What acceptance guarantees of each step: where creators stand, positive delays, who may branch, time out or name approvers, expired branches exactly with a readable timeout, unique ids, and guards that can hold and never sit on creators or gates. |
| Forward.LeadsIsAntisymmetric | internal/workflow/workflow.go:406-408 | In an acyclic graph a cursor that moved on never comes back to the same value. |
| Forward.NothingReturnsToStart | internal/workflow/workflow.go:406-408 | No step reachable from step 0 can move to step 0. |
| Forward.NextKeeps | cmd/daemon.go:235-267 | Every action of any kind keeps the invariant, and the cursor stands still or moves along the graph. |
| Forward.CursorMovesForward | cmd/daemon.go:235-267 | Over any polls, failures and crashes the stored cursor never moves back. |
| Forward.BehindNeverRuns | cmd/run.go:283-311 | No step behind the stored cursor is performed again. |
| Forward.CheckpointedStepNeverRunsAgain | cmd/daemon.go:250-267 | A step whose following checkpoint was written never runs again in any later poll or after any crash. |
| Forward.VisitedCheckNeverFires | cmd/run.go:265-270 | In an accepted workflow the walk never meets a step twice, so its visited check never stops it. |
| Forward.GatesOpenOnce | cmd/daemon.go:231-247 | A run opens each gate at most once and so crosses at most as many gates as there are steps. |
| Forward.EveryPollEnds | cmd/daemon.go:209-248 | Left alone, every poll and every first walk comes to rest within a bounded number of actions. |
| Progress.PollGetsAhead | cmd/daemon.go:209-248 | A poll that finds its gate answered, or a branch to resume, and meets no failure ends the run or stores it waiting at a gate strictly further on. |
| Progress.AnsweredGatesEndTheRun | cmd/daemon.go:132-191 | As many such polls as the workflow has gates bring any run to its end, whatever other polls, failures and crashes fall in between. |
| Progress.SomePollHelps | cmd/daemon.go:305-327 | Whatever gate a dated item of an accepted workflow waits at, some reply or some time answers it. |
| Forward.CommittedBranchIsNeverUnopened | cmd/daemon.go:235-246 | In any reachable run the next checkpoint written reads back as the committed branch or its end, never as a closed gate. |
| Refinement.CrashesOnlyStutter | cmd/daemon.go:183-187 | For any crashes and failures, provided each step's guard answers alike whenever a walk meets that step, the effects without immediate repetitions are a beginning of the crash-free effects for the same outcomes, all of them once completed or at a gate; none recurs elsewhere, and repetitions are at most as many as crashes. |
| Refinement.EffectIsNew | cmd/run.go:264-315 | An effect about to be performed is none of those already acknowledged. |
| Acknowledged.AcknowledgedEffectsAreCrashFree | cmd/daemon.go:183-187 | Whatever the guards answer, at every moment the acknowledged effects are exactly those of a machine that never crashes and lets these steps act; the log holds them in order and at most one lost effect per crash beside them. |
| EffectOrder.EffectOrderExactly | cmd/daemon.go:183-187 | For every span: all real runs of an accepted workflow keep their effects in the order of the flow, with no repetition but right after itself, if and only if no reachable step that one walk may let act can be skipped by another walk on the way to another acting step that is no cancel. All guards of one walk are read on one clock. |
| EffectOrder.NothingOvertakenKeepsOrder | cmd/run.go:271-277 | Where no step can be overtaken, every run whose walks last no longer than the span keeps its effects in order, whatever its guards answer and whatever the clock does between polls. |
| EffectOrder.OvertakenRunsLate | cmd/run.go:271-277 | Where one can, some run from creation, on one clock that never runs back, performs a later step before it. |
| EffectOrder.UnguardedKeepsOrder | cmd/run.go:271-277 | If no acting step has a guard, all runs keep their effects in order: only guards can break it. |
| Clocks.AnyDaysAreDated | cmd/run.go:271 | Read on one clock, the guards of one walk can still meet any weekdays if the walk lasts over enough midnights, so an unbounded span excludes nothing. |
| Routes.RunsFollowRoutes | cmd/run.go:264-315 | Every run of an accepted workflow whose walks last no longer than the span stays on routes: where it stands, what it stored and what it performed are reachable places, for as long as it has not read a chosen gate. |
| RouteRuns.FollowRoute | cmd/run.go:264-315 | Every route, through gates, past guards read on the weekdays of their walk and over retried steps, is taken by some run from creation whose polls read one clock. |
| Polls.PlanExactly | cmd/daemon.go:307-340 | Reading a gate opens it with an outcome onto a step if and only if the replies and the clock give that outcome and the step starts its branch: an acceptance at the accepted target or the next step, a refusal at the declined target or the end, a timeout at the expired target. |
| Polls.CommitsFollowAnswers | cmd/daemon.go:307-340 | In every run of an accepted workflow, every branch ever committed starts where its gate sends the outcome read. |
| Polls.AnswerCommits | cmd/daemon.go:209-248 | A poll of a waiting run that loads the definition and fetches the hold commits exactly the outcome the replies and the clock give, and changes nothing when they give none. |
| Polls.AnswerIsWalked | cmd/daemon.go:209-248 | Left to itself such a poll walks that branch to its end: effects, invitation, stored entry and all. |
| Polls.WalkComesTo | cmd/run.go:264-315 | A walk, from creation or in the daemon, performs exactly the effects of its path through the flow, in order, and leaves the entry and the invitation of the place where it stops. |
| Polls.CreationInvites | cmd/run.go:190-242 | A new hold invites the first approve step's own approver or else the manager, an event its guests, and nobody when nothing is to be approved. |
| Polls.CreationComesTo | cmd/run.go:190-254 | A creation comes to the path from the step after the first, with the hold as it was created. |
| Polls.DroppedExactly | cmd/daemon.go:209-248 | A poll takes a run of an accepted workflow off the watch file if and only if its definition loads and its branch was over, its hold is missing or deleted, or its branch runs to the end or to a cancel in this poll; a poll that cannot load the definition or reach the hold leaves the run as it was. |
| Polls.EntryLeavesOnlyFor | cmd/daemon.go:132-191 | Over any polls, failures and crashes a stored run leaves the file only complete, or because a poll found its hold missing or deleted or a pass pruned it. |
| Polls.CancelIsFinal | cmd/run.go:299-312 | From the moment a run of an accepted workflow deleted its hold, nothing is performed, committed or invited any more, whatever is polled and wherever it crashes; once the removal of its entry is behind it, the file has it as finished or not at all. |
| Templates.RefusalIsNoted | internal/workflow/templates/pto-notify-on-decline.json:4-10 | The bundled template, in full, is accepted; polled once, a run performs the notify step alone on an acceptance, the denial note alone on a refusal, and waits otherwise. |
| Templates.AcceptanceIsAnnounced | internal/workflow/templates/pto-announce.json:4-9 | The same of this template: on an acceptance the message and the notification, on a refusal nothing, and it ends. |
| Templates.AcceptanceFilesLeave | internal/workflow/templates/pto-file-leave.json:4-9 | The same of this template: on an acceptance the leave is filed and the team notified. |
| Templates.SilenceCancels | internal/workflow/templates/pto-cancel-on-timeout.json:4-10 | The same of this template: past its timeout the hold is cancelled and the run ends. |
| Gates.GateAnswersForNamedApprover | cmd/daemon.go:377-389 | Reading a gate answers for a given person on every hold if and only if the item carries that person's email. |
| Gates.WaitOpensExactly | cmd/daemon.go:309-313 | A stored wait of an accepted workflow opens exactly from the end of its positive delay on. |
| Gates.ExpiresExactly | cmd/daemon.go:320-325 | A stored approval can expire at all if and only if its timeout is positive. |
| Gates.NeverExpires | cmd/daemon.go:320-325 | With a timeout of zero or less and no reply, a run stays stored at its gate over any polls and crashes and nothing is performed, until its hold vanishes or is pruned. |
| Gates.GatesWaitForTheirApprover | cmd/daemon.go:340-389 | When invites go through and the first gate on the weekdays of the first walk is the invited person's, in every reachable state the stored item carries, and was sent to, the approver its gate names, and every named gate crossed was crossed on that person's reply. |
| Gates.FileOrderIsSafe | cmd/run.go:395-413 | If no step before the first approve step sets a next, that holds of all runs in which invites go through, whoever the manager is and whatever the guards answer. |
| ExactGates.GateSafetyExactly | cmd/run.go:429-440 | For every span: with invites going through, all real runs cross named gates on their own approver's reply if and only if, on all the weekdays a first walk can meet, the first gate on the way is the invited person's. |
| ExactGates.WrongFirstGate | cmd/run.go:437-439 | When on some such weekdays it is somebody else's, some real run crosses it on the wrong reply. |
| ExactGates.GateSafetyUnderFailingInvites | cmd/daemon.go:357-366 | For every span: whatever the invites do, all real runs cross named gates on their own approver's reply if and only if no route brings an item to such a gate while it carries somebody else. |
| ExactGates.NoStrayIsSafe | cmd/daemon.go:357-366 | Without such a route every run whose walks last no longer than the span, watched or not and for every provider, is safe. |
| ExactGates.StrayRouteCrosses | cmd/daemon.go:357-366 | With one, some run from creation, on one clock, crosses that gate on the other person's reply. |
| Timing.ElapsedTimeCoversCrossedGates | cmd/daemon.go:307-325 | With a clock that never runs back, the time since the hold was enqueued covers every delay waited out and every timeout expired behind the cursor, crashes included. |
| Replies.CommittedBranchIgnoresLateReplies | cmd/daemon.go:231-237 | From a committed branch, runs that differ only in replies agree on every effect, file content and commitment until a gate is read again. |
| NotifyOrder.NoRouteNoEarlyNotify | internal/workflow/workflow.go:393-395 | Without a route around the first approve step no run whose walks last no longer than the span notifies before an outcome was read there. |
| NotifyOrder.TeamHearsAfterFirstApproval | internal/workflow/workflow.go:393-395 | In an accepted workflow whose steps before the first approve set no next, no run notifies before that approval was read. |
| NotifyOrder.EarlyNotifyExactly | internal/workflow/workflow.go:393-395 | For every span: no real run of an accepted workflow notifies before the first approval was read if and only if no early route leads to a notify step. |
| Witnesses.AcceptedWorkflowNotifiesEarly | internal/workflow/workflow.go:393-395 | A definition Validate accepts whose run, each walk within one day, notifies the team with no approval read. |
| Witnesses.AcceptedWorkflowAsksTheWrongPerson | cmd/run.go:437-439 | A definition Validate accepts whose named gate opens on another person's reply, each walk within one day. |
| Witnesses.AcceptedWorkflowRepeatsOutOfOrder | cmd/daemon.go:183-187 | A definition Validate accepts whose run, with one attendee more after a crash and each walk within one day, performs steps 3, 2 and 3 again. |
| Witnesses.OnlyLongWalksRepeatFridays | cmd/run.go:271 | A definition Validate accepts, with a note on working days before a note on Fridays, keeps its effects in order in all real runs if and only if no walk lasts over five midnights or more. |
| Witnesses.TwoLevelCrossesOnTheManagersWord | internal/workflow/templates/pto-two-level.json:4-9 | The bundled two-level template, in full, is accepted, and some run of it from creation, each walk within one day, crosses the director's gate without the director's word. |
| Witnesses.AcceptedTimeoutNeverExpires | internal/workflow/workflow.go:339-353 | A definition Validate accepts whose runs, once created, wait at the gate for ever without a reply, although they have a timeout. |
| WatchList.StoredEntries | cmd/watch.go:93-107 | Storing an item changes the entry of its own hold and of no other. |
| WatchList.StoredHas | cmd/watch.go:93-107 | Storing an item takes out the items of the same provider and hold id, and no others; the item comes last. |
| WatchList.StoredKeepsUnique | cmd/watch.go:91-107 | Storing an item keeps one entry per hold. |
| WatchList.EntryWithout | cmd/watch.go:111-123 | Removing a hold's entry touches no other hold's. |
| WatchList.WithoutKeepsOrder | cmd/watch.go:111-123 | What stays after a removal keeps its order and its number. |
| WatchList.KeptEntries | cmd/daemon.go:142-188 | The list a pass writes has one entry per kept hold, and each hold's entry is its outcome. |
| WatchList.KeptAppends | cmd/daemon.go:142-188 | The list a pass writes has the kept holds in the order they were polled. |
| Daemons.Daemon.AddWatch | cmd/watch.go:93-107 | The loop leaves the list without the hold's old entry and appends the new one. |
| Daemons.Daemon.RemoveWatch | cmd/watch.go:111-123 | The loop leaves the list without the hold's entry. |
| Daemons.Daemon.Store | cmd/daemon.go:254-267 | A checkpoint is the next action of its hold's machine, stores that item in place of the older one and leaves every other machine alone. |
| Daemons.Daemon.ForgetHold | cmd/run.go:303-311 | After a cancel the entry is removed and, in the daemon, the run is then stored as done. |
| Daemons.Daemon.TakeEffect | cmd/run.go:278-312 | An acting step is its effect followed by its writes, in that order, and a cancel ends the walk. |
| Daemons.Daemon.WalkSteps | cmd/run.go:264-315 | The walk loop ends at a gate, at a failed step or at the end; its machine took nothing but actions of its own and settles as it would have. |
| Daemons.Daemon.GateWaiting | cmd/run.go:418-449 | A watched run is stored waiting at the gate, an unwatched one is not stored. |
| Daemons.Daemon.RunWorkflow | cmd/run.go:190-254 | Creation and first walk add the new hold's machine, which acts on its own until it is settled, and touch no other; a refused creation changes nothing. |
| Daemons.Daemon.AdvanceToNextGate | cmd/daemon.go:346-372 | The branch runs on to the next gate, its end or a failed step, and the item returned is what the machine is about to store; a run reported advanced waits anew at a gate for its own approver, the invitation sent. |
| Daemons.Daemon.AdvanceRun | cmd/daemon.go:209-248 | One poll makes the hold's machine begin that poll and take only actions of its own. When the definition does not load or the hold cannot be reached it fails and leaves the item; it reports the hold gone exactly when an unfinished one is missing or deleted, and a finished branch only with the outcome that was read. |
| Daemons.Daemon.PollAll | cmd/daemon.go:132-191 | The final list is the loaded one in order, finished holds dropped and the rest replaced by their updated items; every listed hold's machine began its own poll and acted until settled, or was left or dropped because its provider could not be built. A hold leaves the file exactly when its branch ended or a cancel was performed, it is missing or deleted, or its provider was pruned; one that could not be loaded or reached keeps its whole state. |
| Daemons.Daemon.Restart | cmd/daemon.go:183-188 | A process started after a crash at any moment of an earlier history, in the middle of a pass included, has the file, the calendar and the effects of that moment, every machine at rest, and a crash noted for each. |
| Histories.HistoryRunsEachMachine | cmd/daemon.go:183-188 | Between any two moments of the history each hold's machine ran exactly the inputs noted for it in between, and the file at every moment has one entry per hold, that of its machine. |
| Histories.EveryRunWasCreated | cmd/run.go:190-254 | At every moment of the history each machine is what the inputs noted for it made of the run its command created, and the crashes among them are the crashes of the history. |
| Histories.HistoryMovesForward | cmd/daemon.go:235-267 | Over the whole history of the file every hold's stored cursor only moves forward. |
| Histories.AnswersDecide | cmd/daemon.go:307-340 | At every moment of the history every branch ever committed for a hold starts where its gate sends the outcome read. |
| Histories.EffectsOnlyStutter | cmd/daemon.go:183-187 | At every moment of the history the three crash results hold of the effects the provider saw for a hold: the acknowledged ones are crash-free and beside them stands at most one for each crash of the history; if the guards read in the polls noted for it answer alike, only stutters; in order where the span of its walks lets nothing be overtaken. |
| Coverage.Ledger.RecordEntry | internal/coverage/coverage.go:73-94 | A booking is refused for an empty window or an unreadable file; otherwise the file holds what still runs and the booking. |
| Coverage.Ledger.RemoveHold | internal/coverage/coverage.go:98-120 | After a removal no entry of the hold is left and all others stay; an unknown or empty id changes nothing. |
| Coverage.Ledger.Overlapping | internal/coverage/coverage.go:124-142 | The answer is the selected entries, each as often as stored, ordered by start. |
| Coverage.Ledger.CountOff | internal/coverage/coverage.go:146-156 | The count is of distinct people with a selected entry. |
| Coverage.SelectedHas | internal/coverage/coverage.go:132-139 | An entry is selected exactly when it is stored, not the excluded owner's, and overlaps the half-open window. |
| Coverage.EndingAfterHas | internal/coverage/coverage.go:86-90 | Exactly the stored entries ending after the clock survive a booking. |
| Coverage.WithoutHoldHas | internal/coverage/coverage.go:110-114 | Exactly the entries of other holds survive a removal. |
| Coverage.DroppingKeepsOrder | internal/coverage/coverage.go:86-114 | What survives a booking or a removal keeps its order and its number. |
| Coverage.OverlapsExactly | internal/coverage/coverage.go:36-38 | Two windows overlap if and only if some moment lies in both. |
| Coverage.AnotherBooking | internal/coverage/coverage.go:146-156 | One more booking of somebody already off leaves the count, and the first of somebody else adds one. |
| Coverage.PruningIsInvisible | internal/coverage/coverage.go:71-72 | After any calls, in any clock order, a window starting at or after every clock used selects what a ledger that never prunes would select. |
| Coverage.EarlierWindowsShowPruning | internal/coverage/coverage.go:71-72 | For every earlier start there are calls after which the two differ. |
| LedgerLock.LockedLedgerIsSerial | internal/coverage/coverage.go:55-69 | After any interleaving, dying processes included, the file is what some order of calls leaves, each returned call in it once; only the lock holder is ever inside, and exactly the requests for nothing are refused before it. |
| LedgerLock.ReadersSeeSerialStates | internal/coverage/coverage.go:124-141 | A reader without the lock sees the file between two calls of that same order. |
| LedgerLock.OrderFollowsTime | internal/coverage/coverage.go:55-69 | A call that returned before another was asked comes before it in the order. |
| LedgerLock.NobodyIsShutOut | internal/coverage/coverage.go:55-69 | Whatever happened before, a call that was asked can still return without any process dying. |
| LedgerLock.UnlockedUpdatesAreLost | internal/coverage/coverage.go:55-58 | Without the lock two bookings can both return and leave a file neither order of them leaves. |
| StateStores.StateStore.Reap | internal/slack/link.go:78-85 | The reaping loop leaves exactly the unexpired tokens. |
| StateStores.StateStore.IssueToken | internal/slack/link.go:63-74 | A new token is stored for its lifetime beside only unexpired ones; without entropy the empty token is returned and nothing changes. |
| StateStores.StateStore.ConsumeToken | internal/slack/link.go:89-104 | A known token is spent whatever the answer; the empty token is never accepted. |
| StateStores.ReapingIsInvisible | internal/slack/oauth.go:146-156 | With a clock that never runs back every answer is that of a store that never reaps. |
| StateStores.ConsumeAnswersExactly | internal/slack/oauth.go:158-172 | A token is accepted if and only if it was issued, not issued or consumed since, and its lifetime is not over; it then yields what it was issued for. |
| StateStores.TokensAreSingleUse | internal/slack/oauth.go:160-172 | Each issue of a token is good for at most one acceptance. |
| StateStores.IssueLeavesOnlyRecentTokens | internal/slack/oauth.go:146-148 | Right after an issue every stored token was issued less than a lifetime before. |
| Schedules.ScheduleFile.FireSchedules | cmd/schedule.go:243-262 | Every due schedule runs and moves one interval past now, failing or not; the list keeps length and order. A poll may die after any number of runs. |
| Schedules.ScheduleFile.PollSchedules | cmd/schedule.go:266-279 | A poll that lives persists exactly that; one that dies before the save leaves the file as it was, its runs done. |
| Schedules.FiresAreSpaced | cmd/schedule.go:238-242 | Consecutive fires are at least the interval and less than interval plus polling gap apart. |
| Schedules.FirstFire | cmd/schedule.go:243-262 | The first fire is at the first poll that has reached the next run, and at once without one. |
| Schedules.TwoSidedRate | cmd/schedule.go:238-262 | Over polls that all save and span a time T, a schedule fires at most 1 + T/E times and, due at first, often enough to cover the span. |
| Schedules.LostRunsAreExtra | cmd/schedule.go:275-276 | Exactly: a schedule ends up where the saved polls alone put it, and fires as often as under those alone and once more for every lost poll that had run it. |
| Schedules.LostRunRepeats | cmd/schedule.go:275-276 | A due schedule whose poll is lost runs again at the next one, at any time from then on. |
| Schedules.ApartDespiteDeaths | cmd/schedule.go:238-242 | Whatever polls die, consecutive fires stay an interval apart if and only if after each lost run the next poll to handle the schedule comes an interval later or more. |
| Schedules.RateWithDeaths | cmd/schedule.go:275-276 | Whichever polls die before the save, over a span T a schedule fires at most 1 + T/E times and once more for each lost poll that had run it. |
| Schedules.NoIntervalFiresEveryPoll | cmd/schedule.go:255-257 | Without a positive interval a due schedule fires at every poll. |
| FanOut.Provider.PromoteHold | cmd/promote.go:46-80 | The hold is updated with the joined attendees, free when unset, exactly when somebody new joins and the provider accepts; all other outcomes change nothing. |
| FanOut.JoinedCoversTheTeam | cmd/promote.go:54-67 | Existing attendees stay unchanged and in order, and afterwards exactly the listed and the team's emails are covered. |
| FanOut.JoinedAddsEachOnce | cmd/promote.go:59-66 | Each added attendee has the name and email of a team member, the first of that email, is optional and without a reply, and no other attendee shares the email. |
| FanOut.FanOutIsIdempotent | cmd/promote.go:68-71 | Repeating the fan-out for the same people, in any order and spelling, adds nobody, and nobody is added exactly when all are covered. |
| FanOut.RespelledTeamAddsNobody | cmd/promote.go:54-67 | Repeating the fan-out with the case of letters changed in any emails adds nobody. |
| FanOut.NotifyTwice | cmd/daemon.go:183-187 | A notify repeated after a crash sends nothing more. |
| FanOut.InviteRequired | cmd/daemon.go:393-401 | The next approver is appended as required unless already listed, and everybody else stays. |
| FanOut.RepliesSurviveAdditions | internal/calendar/calendar.go:112-129 | Adding people never changes the reply of somebody already listed. |
| Workdays.Set.WithWeekend | internal/workdays/workdays.go:46-52 | The weekend becomes exactly the given weekdays. |
| Workdays.Set.WithHolidays | internal/workdays/workdays.go:55-60 | The calendar dates of the given times are added as holidays. |
| Workdays.Set.Count | internal/workdays/workdays.go:73-83 | The count is the number of working days from the start's day up to the exclusive end. |
| Workdays.DaysMeetTheWindow | internal/workdays/workdays.go:70-83 | The days looked at are exactly those some moment of the window falls on. |
| Workdays.DefaultWeekend | internal/workdays/workdays.go:36-42 | By default every day is worked but Saturdays and Sundays, counted from the first ones of 1970. |
| Workdays.AdjacentWindowsAdd | internal/workdays/workdays.go:70-83 | Windows that meet at midnight add up; otherwise the shared day counts twice exactly when it is worked. |
| Workdays.WholeWeeksCount | internal/workdays/workdays.go:63-83 | k whole weeks hold k(7 - weekend days) working days whatever day they start on, less the holidays on days otherwise worked. |

## Left out

- Calendar, OAuth, Slack, SMTP, webhook and HR clients, the dashboard, the tray, the MCP server, the JSON codec and the sealing of stored tokens: a provider call is a success or a failure.
- Workflow files edited between polls: each hold keeps one workflow for its run.
- Failing checkpoint and watch-file writes: the code only logs them.
- Steps and invites that fail after taking effect: a failed call is taken to have done nothing, so a provider that succeeds and then reports an error repeats that step or invite without any crash, which the crash theorems do not count.
- Walks across time zone changes: the weekdays of a walk are those of one clock with days of equal length in one location.
- A command and the daemon writing the watch or schedule file at the same time: these share no lock, and one writer at a time is assumed; concurrency is modelled for the ledger.
- Daemons.Daemon.PollAll: leaves out log lines, the set of warned holds, and clearing coverage after a decline or a vanished hold, since result labels after a resume do not tell the real outcome.
- Daemons.Daemon.ForgetHold: leaves out the removal of the coverage record and the last-hold state file.
- Daemons.Daemon.RunWorkflow: leaves out previews, the last-hold state file, audit events and the coverage record of a new hold.
- Gates.GatesWaitForTheirApprover: assumes that invites go through and that the first gate is the invited person's; `ExactGates` removes both assumptions.
- Refinement.CrashesOnlyStutter: assumes that a guard answers alike whenever its step is met, and `Witnesses.AcceptedWorkflowRepeatsOutOfOrder` fails it without; `Acknowledged` and `EffectOrder` treat guards that change their answer.
- Timing.ElapsedTimeCoversCrossedGates: measures from the moment the command enqueues the hold, on the clock values the polls read.
- FanOut.FanOutIsIdempotent: speaks of one fan-out on the hold it read; a walk that notifies and then invites sends the older attendee list, so a growing list over a whole run is not claimed.
- Coverage.Ledger.Overlapping: the library sort is modelled by an insertion sort whose contract leaves the order of equal starts open.
- StateStores.StateStore.IssueToken: the random token is a parameter; the oauth store is the same store with nothing attached to a token.
- Workdays.Set.Count: days have 86400 seconds and one location; time zones, daylight saving and date parsing are not modelled.
- Guards.ParseDays: trims ASCII white space only.
- Calendar.ReplyOf: folds ASCII letters only.
- Schedule files: adding, removing and validating schedules are simple list edits.
- Verb classes and the free/busy, role and response spellings are small tables that carry no theorem of their own.
