# Verification of the Collab Hub's execution engine, frontmatter reader and catalog

A Dafny 4.11 model of four parts of the Collab Hub, with proofs of what each promises over all inputs, all runs
and all interleavings. `dafny verify dfyconfig.toml` checks the whole project. Nothing here was executed: the
claims below are what the verifier proves of the model.

**Runs.** A run is an append-only Track of events; its state is the run machine folded over them. One host's
lifecycle runner claims a run, drives it step by step through workers and Gates, and races with cancels, decisions,
retries, submissions, host starts, clients that write to the Track from another process, and crashes between any
two of its statements.

- `RunMachine`, `Keys` (on `Text`), `Budget`: the machine, the attempts' identities, the limits.
- `Ledger`, `LedgerSound`, `TrackLaws`, `Readers`: what a Track says, folded once; the discipline the runner keeps
  (`Legal`); what a legal Track never shows; the loops that read a Track, proved to find what the ledger holds.
- `Runner`, `RunnerInv`, `RunnerProof`, `RunnerReach`, `RunnerLaws`, `RunnerTheorems`: the runner as a protocol. A `Behaviour` is any
  interleaving of the claim holder's atomic steps with accepted cancels, a cancel's own teardown, client appends
  and crashes. One invariant is kept by every step, and the laws of whole runs are drawn from it.
- `LifecycleRunner`: the runner as the imperative program it is, with loops, branches and assigned fields. Every
  statement is proved to be one step of the protocol while `Others()` interferes between any two, so every law of
  behaviours holds of every history of its methods' calls.
- `RunnerWalks`, `RunnerStops`, `BudgetEdge` (on `BudgetSteps`): exactly when a pass starts a step, stops for its budget
  or ends its run `completed`; what a budget stop names; and runs that complete over a limit.
- `RunTokens`: which run token verifies.

**Tracks and their readers.** `TrackStore` is the store one process keeps in memory, with `Others()` appending
between the reads of one that polls. `PostgresTrack` is the shared database: append transactions that take a lock
on a hash of the run's id, draw a sequence, commit in any order or abort, and readers that page by cursor.
`Views`, `RunViews`, `Intents` and `TurnDelivery` are what clients ask of a run and are shown of it.

**Frontmatter.** `Frontmatter` holds the three index-loop scanners that read one value, each as a method proved
against a function over (index, state). `FrontmatterSafe` runs the comment scan and the flow split side by side,
though they disagree about where quotes open, to show that unescaping never reads past its end.
`FrontmatterReadBack` shows that quoted and plain text read back as themselves, alone and in lists (sections 7.3.1 to
7.3.3 and 7.4.1 of YAML 1.2.2), and `FrontmatterEscapes` which quoted, plain and listed texts are read at all, exactly
(section 5.7 of the same, for escapes).

**Catalog.** `Containment` is JSON containment and the filters built on it, `LikePattern` the escaped substring
pattern, `Catalog` the listing of each Cog's newest row, in memory and as the two-stage query.

How time and outside parties enter: the clock, what an executor and a worker do, and which client acts next are
nondeterministic (`Choice`, `Action`, `:= *`). A method's `old(states) <= states` says that the behaviour only
grows; `Valid()` of `LifecycleRunner` says that the fields are the last state of a behaviour.

Where code and comments differ, the code is followed: the comment scan's own description has a comment start the
value or follow whitespace, while inside a quoted or bracketed value the code also opens one right after `[`, `{`
or `,` (api/src/collab_hub_api/cogs/frontmatter.py:471-476), and `OpensComment` does too. The driver's comment says
that a run that overspent on its last step stops instead of completing over its budget
(execution/src/collab_hub_execution/runner.py:802-803); the code makes that check only in a pass that reached a step,
and `RunnerWalks.ClosesExactly` says when. `RunViews` is described as safe to share between threads
(execution/src/collab_hub_execution/intents.py:202); its `events` and `view` read what is kept without the lock, and
`RunViews.CopyRaisesExactly`, `RunViews.CopyIsOfAMoment` and `RunViews.ViewIsOfAMoment` say when they answer rightly.

## Model

| member | source | states |
|---|---|---|
| `RunMachine.Replay` | execution/src/collab_hub_execution/states/run.py:337-363 | the two loops of `replay` compute the fold of the machine over a Track, Tracks written before pickups were recorded included |
| `Keys.KeyInjective` | execution/src/collab_hub_execution/runner.py:93-102 | the idempotency key is injective in run id, step name and attempt number, for all strings |
| `Budget.ValidateUsage` | execution/src/collab_hub_execution/runner.py:124-144 | accepted exactly when nothing in it is unusable and it names every limited dimension; what it names is recorded as given, and an absent report as absent |
| `Budget.BudgetTracker.Check` | execution/src/collab_hub_execution/lifecycle.py:56-69 | no limit is reached exactly when the deadline lies ahead and tokens and cost are strictly below their limits; of those reached the duration is named first, then the tokens, then the cost |
| `Budget.BudgetTracker.Consume` | execution/src/collab_hub_execution/lifecycle.py:71-74 | the tokens and the cost grow by exactly what the report names of each, whether or not a limit is then reached |
| `LedgerSound.SoundStep` | execution/src/collab_hub_execution/runner.py:640-731 | the ledger invariant (run, flight, Gates) is kept by every event the runner's discipline allows |
| `TrackLaws.ReplayNeverRefuses` | execution/src/collab_hub_execution/states/run.py:337-363 | on every Track the runner can write, replay refuses nothing and agrees with the ledger |
| `TrackLaws.CompletedOnce` | execution/src/collab_hub_execution/runner.py:386-387 | no step is completed twice |
| `TrackLaws.CompletedInOrder` | execution/src/collab_hub_execution/runner.py:733-812 | the completed steps are a prefix of the Op's steps at every moment, and a run is completed only when all of them are |
| `TrackLaws.ApprovedResultStands` | execution/src/collab_hub_execution/runner.py:431-452 | after an approval the step never starts again, and if it completes, it is with that escalation's id, attempt, usage and result, through any crash and retry |
| `TrackLaws.AnsweredWasApproved` | execution/src/collab_hub_execution/runner.py:1050-1057 | a step that completes as the answer to an escalation was approved by an earlier decision naming that escalation |
| `TrackLaws.SendBacksWithinLimit` | execution/src/collab_hub_execution/states/run.py:152-184 | no step of a run is sent back more often than the revision limit, or than it escalated, through any retries and restarts |
| `TrackLaws.EscalationIdsDistinct` | execution/src/collab_hub_execution/gates.py:102-110 | no two escalations of a run share an id, so a late decision never answers another escalation |
| `TrackLaws.AttemptsRise` | execution/src/collab_hub_execution/runner.py:857-872 | attempt numbers of a step never go down along a run |
| `TrackLaws.SharedKeyMeansInterrupted` | execution/src/collab_hub_execution/runner.py:857-872 | two starts share a key only for one step and attempt, with an interruption between them and neither an escalation of the step nor a new-attempt retry |
| `TrackLaws.StartsWithinBudget` | execution/src/collab_hub_execution/runner.py:768-773 | every step starts with the recorded spending known and strictly below each limit: the sums of the tokens and of the costs that the reports before it name |
| `TrackLaws.TallyIsSums` | execution/src/collab_hub_execution/runner.py:389-407 | the running total of any events' reports is the sum of the tokens and the sum of the costs they name, known exactly when each names what is limited |
| `TrackLaws.SubmissionIsFirst` | execution/src/collab_hub_execution/runner.py:379-384 | over any events: a run's Op, and when it started, are those of the first event that submitted it |
| `TrackLaws.OvershootIsOneReport` | execution/src/collab_hub_execution/runner.py:768-812 | without its last report a run's recorded spending is known, and its sums are strictly below every limit |
| `TrackLaws.UnknownSpendingIsFinal` | execution/src/collab_hub_execution/runner.py:124-144 | under a spending limit, once a report is recorded that does not account for it, no step of the run ever starts again |
| `TrackLaws.CancelRequestIsStanding` | execution/src/collab_hub_execution/intents.py:45-58 | over any events: what is read is the first request since the last retry, and none exactly when every request was outlived by a retry |
| `TrackLaws.StandingRequestUnique` | execution/src/collab_hub_execution/intents.py:45-58 | at most one request stands, and it is the one read |
| `TrackLaws.OneRequestPerAttempt` | execution/src/collab_hub_execution/intents.py:61-82 | between two requests on a Track there is a retry, and none was appended while the run was ended |
| `Readers.CompletedSteps` | execution/src/collab_hub_execution/runner.py:386-387 | the reading loop finds exactly the steps that some event completes, on any events: the ledger's |
| `Readers.RetryCount` | execution/src/collab_hub_execution/runner.py:410-415 | the count is of the positions at which a retry opened a new attempt |
| `Readers.Approved` | execution/src/collab_hub_execution/runner.py:431-452 | the loop finds the step's last escalation, if it was approved and neither decided again nor completed since, on any events |
| `Readers.ApprovedIs` | execution/src/collab_hub_execution/runner.py:431-452 | the ledger has a step approved exactly when its last escalation holds a result and its last decision, with nothing of the step since, approved it |
| `Readers.SignalFor` | execution/src/collab_hub_execution/runner.py:418-429 | the loop finds the findings of the latest send back of a step, and none exactly when it was never sent back |
| `Readers.CancelRequest` | execution/src/collab_hub_execution/intents.py:45-58 | the loop reads the standing request |
| `Readers.BudgetTracker` | execution/src/collab_hub_execution/runner.py:389-407 | two passes: a completed step's usage counts only where no report of the step was recorded; refuses at the first unaccountable one |
| `Readers.RebuiltIsTally` | execution/src/collab_hub_execution/runner.py:389-407 | on every Track the runner can write, the rebuilt total is the sum of the tokens and of the costs its reports name, known exactly when each names what is limited |
| `Readers.RebuiltIsSums` | execution/src/collab_hub_execution/runner.py:389-407 | on any events, reports recorded or not: a known total is the sums of what is named, each step's usage counted once; unknown exactly when something counted does not name what is limited |
| `Readers.RebuiltBelow` | execution/src/collab_hub_execution/runner.py:389-407 | a rebuilt total is known and within the limits exactly when the reports' sums are below each |
| `RunnerProof.KeepsReading` | execution/src/collab_hub_execution/runner.py:640-677 | what a call reads of the run it claimed leads it only where its record is allowed |
| `RunnerReach.BehaviourKeeps` | execution/src/collab_hub_execution/runner.py:273-1110 | the protocol's invariant holds in every state of every behaviour: every interleaving, with a crash anywhere |
| `RunnerLaws.EveryTrackIsLegal` | execution/src/collab_hub_execution/runner.py:565-603 | every Track of every behaviour is a legal history of the machine, and replays |
| `RunnerTheorems.CarriedIsReplayed` | execution/src/collab_hub_execution/runner.py:220-239 | while a pass advances a run, the run it carries is what replaying the Track gives |
| `RunnerTheorems.OnlyTheHolderMoves` | execution/src/collab_hub_execution/runner.py:470-502 | only the claim's holder moves a run; a run is interrupted only by a host's start that holds its claim and is not advancing it |
| `RunnerLaws.AcceptedCancelDecides` | execution/src/collab_hub_execution/runner.py:516-562 | once a cancel is accepted, the pass writes no later result and no end but `cancelled`, naming who asked first, and is over only by writing it |
| `RunnerTheorems.NothingAfterTheEnd` | execution/src/collab_hub_execution/runner.py:618-629 | once a pass has written its end, no cancel of it is accepted, no teardown of its worker is under way, and it writes nothing more |
| `RunnerTheorems.LetsGoOnlyByEnding` | execution/src/collab_hub_execution/runner.py:733-812 | a pass that began to advance a run lets it go only by writing an end, unless the host stops |
| `RunnerTheorems.TornDownOnce` | execution/src/collab_hub_execution/runner.py:943-970 | a worker's teardown is claimed by exactly one of the driver and a cancel; the executor is called again only after the cancel's own call raised |
| `RunnerTheorems.WorkerGoneFirst` | execution/src/collab_hub_execution/runner.py:814-852 | before a result, the next step or the run's end is written, the worker's teardown has returned, or the failed teardown is recorded beside the end |
| `RunnerLaws.PayloadNeverOverwritten` | execution/src/collab_hub_execution/runner.py:322-332 | a payload kept by reference is there when an event names it, is what the approver is shown, and is never overwritten, by later attempts or by other runs, which keep theirs under their own keys |
| `RunnerTheorems.ResultIsTheAnswer` | execution/src/collab_hub_execution/runner.py:322-345 | what a step completes with, and what an approver is shown, is the payload the worker answered with: in the event, or under its reference from then on |
| `RunnerTheorems.GateDecides` | execution/src/collab_hub_execution/runner.py:785-799 | what is escalated, policy by policy: never, exactly with a problem of severity error, exactly with any problem, always; a step completes without an approval only otherwise; either follows an answer that is ok, from a worker that was torn down |
| `RunMachine.StricterAsksToo` | execution/src/collab_hub_execution/gates.py:59-68 | a stricter policy escalates whatever a laxer one does |
| `RunnerTheorems.AlwaysMeansAPerson` | execution/src/collab_hub_execution/gates.py:59-68 | under a Gate that always escalates, a step completes only as the answer to an approval |
| `RunnerTheorems.DecisionsAsMade` | execution/src/collab_hub_execution/runner.py:1089-1110 | a decision is recorded as it was made, of the open escalation; a send back fails the run instead exactly when the Track's escalations of the step are more than the revision limit |
| `RunnerTheorems.FailsForAReason` | execution/src/collab_hub_execution/runner.py:1008-1049 | a step is recorded failed only for a reason, and with it: what broke the attempt, the code its worker answered with, or the teardown that failed, which is recorded beside either |
| `RunnerTheorems.RunFailsForAReason` | execution/src/collab_hub_execution/runner.py:1008-1049 | an advancing run is recorded failed only for spending that cannot be accounted for, a teardown that failed, or a step without a result, the teardown first |
| `RunnerTheorems.PreparesExactly` | execution/src/collab_hub_execution/runner.py:745-754 | a pass goes on to the steps with the sums the reports of its history name, and under a budget exactly when each names what is limited; otherwise the run fails for it |
| `RunnerTheorems.AskedOnlyUncancelled` | execution/src/collab_hub_execution/runner.py:890-898 | no worker is asked anything once the run's cancel was accepted |
| `RunnerTheorems.TokenIsTheWorkers` | execution/src/collab_hub_execution/runner.py:876-888 | the token recorded of a worker that is started is the one the executor gave it, for its own step and attempt |
| `RunnerTheorems.TrackerIsTheRebuiltOne` | execution/src/collab_hub_execution/runner.py:389-407 | the tracker a pass carries is, at every boundary, the one rebuilt from the Track |
| `RunnerTheorems.CompletesWithin` | execution/src/collab_hub_execution/runner.py:800-812 | a run is recorded `completed` only by a pass that found every step of its Op completed when it began, or with the recorded spending known and its sums strictly below every limit |
| `RunnerWalks.ClosesExactly` | execution/src/collab_hub_execution/runner.py:749-812 | the check at the end of a walk, exactly: it closes with `completed` if and only if every step was completed in the history the pass took up, whatever is recorded as spent, or the sums the reports name are below every limit and the deadline, counted from the submission, lies ahead; else with a budget stop |
| `RunnerWalks.GoesOnExactly` | execution/src/collab_hub_execution/runner.py:755-774 | the check before a step, exactly: an attempt starts if and only if the pass is not cancelled, no approved result waits, and the sums and the clock are below every limit; an approved result completes its step whatever is spent; otherwise the run closes with a budget stop at that step |
| `RunnerStops.StopsForTheLimit` | execution/src/collab_hub_execution/runner.py:768-812 | a budget stop names a limit that is set and that the Track's reports have reached, the tokens' first if both have been |
| `RunnerWalks.CompletesExactly` | execution/src/collab_hub_execution/runner.py:749-812 | so an uncancelled pass that comes to the end of its walk writes `completed` exactly then, and `budget_exceeded` in every other case |
| `BudgetEdge.OvershootCompletes` | execution/src/collab_hub_execution/runner.py:785-812 | for every budget a run may start under and every accepted report that passes a limit: a behaviour in which the step completes, the host stops before the budget stop, a start interrupts, a retry follows, and the run is recorded `completed` with the recorded spending known and over its limits |
| `BudgetEdge.CompletesUnchecked` | execution/src/collab_hub_execution/runner.py:800-812 | an Op without steps completes unchecked under any budget that nothing at all already reaches |
| `LifecycleRunner.LifecycleRunner.Acquire` | execution/src/collab_hub_execution/runner.py:579-585 | a run another call holds is left alone; else the claim is the caller's, fresh |
| `LifecycleRunner.LifecycleRunner.Cancel` | execution/src/collab_hub_execution/runner.py:516-553 | of a run being advanced: accepted exactly while the driver accepts cancels; keeps who asked first; claims the live worker if nobody has |
| `LifecycleRunner.LifecycleRunner.RunAttempt` | execution/src/collab_hub_execution/runner.py:814-852 | every statement is a step of the protocol, and it ends with the worker let go of, whatever raised |
| `LifecycleRunner.LifecycleRunner.TearWorkerDown` | execution/src/collab_hub_execution/runner.py:925-970 | the teardown step and its wait for a cancel's own teardown, each statement a step of the protocol |
| `LifecycleRunner.LifecycleRunner.Finish` | execution/src/collab_hub_execution/runner.py:609-629 | unless the host stops first, the event the run ends with is on the Track when it returns: the end it was asked for, or `cancelled` naming who asked, if a cancel was taken first |
| `LifecycleRunner.LifecycleRunner.Keep` | execution/src/collab_hub_execution/runner.py:631-638 | the condition is taken for a result exactly when no cancel was taken first, which is turned to otherwise |
| `LifecycleRunner.LifecycleRunner.CompleteStep` | execution/src/collab_hub_execution/runner.py:978-984 | under the condition, the step's result is appended as the attempt's own answer, and a budget this step reached stops the run there |
| `LifecycleRunner.LifecycleRunner.TakeStep` | execution/src/collab_hub_execution/runner.py:755-799 | one turn of the driver's loop: the walk goes on past the step, or the run's end is on the Track |
| `LifecycleRunner.LifecycleRunner.Advance` | execution/src/collab_hub_execution/runner.py:733-812 | the driver terminates with an end of the run on the Track, unless the host stops first; every statement of it is a step of the protocol under interference |
| `LifecycleRunner.LifecycleRunner.Move` | execution/src/collab_hub_execution/runner.py:565-603 | any call, from claim to release, extends the behaviour by steps of the protocol only |
| `LifecycleRunner.LifecycleRunner.TrackIsLegal` | execution/src/collab_hub_execution/runner.py:273-310 | after any calls, with others interfering anywhere, the Track is a legal history |
| `RunTokens.Verify` | execution/src/collab_hub_execution/run_tokens.py:45-66 | over any events: answers with a worker that is up and was started with the token, and with none exactly when there is none |
| `RunTokens.LastStartedAlone` | execution/src/collab_hub_execution/run_tokens.py:45-66 | on a Track the runner writes only the last worker started can be up, so at most one token verifies |
| `RunTokens.VerifiesExactlyLastHanded` | execution/src/collab_hub_execution/run_tokens.py:45-66 | a token verifies exactly when it was handed to the last worker started, with no later stop of its instance and no later run end |
| `RunTokens.VerifiesOnlyWhileRunning` | execution/src/collab_hub_execution/run_tokens.py:24-66 | no token verifies but while the run is running, rejected runs and runs at a Gate included |
| `TrackStore.InMemoryTrackStore.Append` | execution/src/collab_hub_execution/track.py:201-215 | refused exactly for an assigned sequence, a known id or a second submission, changing nothing; stored, it is the run's last row |
| `TrackStore.InMemoryTrackStore.AppendIf` | execution/src/collab_hub_execution/track.py:217-219 | appends exactly if the condition holds of the run's rows, all of which it follows |
| `TrackStore.InMemoryTrackStore.Replay` | execution/src/collab_hub_execution/track.py:221-223 | the rows of a run past a cursor |
| `TrackStore.InMemoryTrackStore.Poll` | execution/src/collab_hub_execution/track.py:178-188 | reading on while others append yields every row past the cursor, in order, once each, up to the last read |
| `TrackStore.Resumes` | execution/src/collab_hub_execution/track.py:178-188 | reading on from the last row yielded gives what starting over would have had besides |
| `PostgresTrack.SelectIsAfter` | execution/src/collab_hub_execution/track.py:512-532 | ordered by sequence or by commit, a select past a cursor reads the same rows |
| `PostgresTrack.StepKeeps` | execution/src/collab_hub_execution/track.py:469-506 | lock ownership, sequence order and what conditions saw are kept by every step of any number of transactions and readers |
| `PostgresTrack.ReaderNeverSkips` | execution/src/collab_hub_execution/track.py:393-410 | in every reachable database, what a reader collected is a prefix of the run's committed rows past its start, and commit order is sequence order |
| `PostgresTrack.ReadCatchesUp` | execution/src/collab_hub_execution/track.py:508-532 | after each read a reader has every committed row of its run past its start |
| `PostgresTrack.ConditionSawWhatPrecedes` | execution/src/collab_hub_execution/track.py:497-506 | what an append's condition held of is exactly the rows its row follows when committed |
| `PostgresTrack.WithoutTheLockARowIsSkipped` | execution/src/collab_hub_execution/track.py:400-407 | without the lock there is a behaviour in which a reader skips a committed row for good |
| `Views.Build` | execution/src/collab_hub_execution/intents.py:126-169 | the loops of `_view` compute the view as a fold over the whole Track |
| `Views.EndedShowsNothingOpen` | execution/src/collab_hub_execution/intents.py:158-162 | over any events: the view of an ended run shows no step running or at its Gate |
| `Views.ViewAsTold` | execution/src/collab_hub_execution/intents.py:126-169 | over any events: a step's state is by the last event about it, its attempt the last that started, its error that of its last failure unless it started since, its output what it last completed with; a step still running or at its Gate ended as its run did |
| `Views.RunAsTold` | execution/src/collab_hub_execution/intents.py:126-169 | over any events: a view's state is the run's, its Op the one submitted first, who asked for its cancel the standing request, its error that of the last end that failed it unless retried since |
| `Views.ViewShowsCompleted` | execution/src/collab_hub_execution/intents.py:126-169 | on a Track the runner writes, a step is shown completed exactly when the run has completed it |
| `Views.Turns` | execution/src/collab_hub_execution/intents.py:305-325 | the loops of `turns` compute the fold of which `TurnsRead` and `TurnsShowTheirAnswers` say what each turn reads as |
| `RunViews.RunViews.Refresh` | execution/src/collab_hub_execution/intents.py:215-240 | what is kept of a run is built from the run's rows as they were at one moment of the call, ended runs that moved again included |
| `RunViews.RunViews.View` | execution/src/collab_hub_execution/intents.py:253-258 | what is kept is read twice after the lock is let go; for a run whose Track replays, the view is the fold over the whole Track at one moment of the call |
| `RunViews.ViewIsOfAMoment` | execution/src/collab_hub_execution/intents.py:253-258 | for every Track: the answer is what the run was at one moment of the call, exactly unless it was submitted when asked of and became unreadable between the two reads |
| `RunViews.UnreadableBetween` | execution/src/collab_hub_execution/intents.py:253-258 | an interleaving of refreshes in which a submitted run reads as never submitted |
| `RunViews.ReplayedBefore` | execution/src/collab_hub_execution/states/run.py:337-363 | a Track that replays replayed at each earlier moment, Tracks whose first pickup was recorded late included: a run once unreadable stays so |
| `RunViews.RunViews.TurnsAsked` | execution/src/collab_hub_execution/intents.py:260-265 | equals the fold over the whole Track at one moment of the call, though what is kept moves between refresh and reading |
| `RunViews.RunViews.Events` | execution/src/collab_hub_execution/intents.py:247-251 | the list is tested, then copied, both after the lock is let go, while a refresh may be part way; the events at one moment of the call when nothing is appended meanwhile, and when the run has ended at no moment of the call |
| `RunViews.CopyRaisesExactly` | execution/src/collab_hub_execution/intents.py:247-251 | the copy raises exactly when the list was there at the test and a refresh that took in more events let it go before the copy |
| `RunViews.CopyIsOfAMoment` | execution/src/collab_hub_execution/intents.py:215-251 | what is copied is the run's events at one moment of the call, exactly unless a list that a refresh emptied for an ended run is copied before it is filled again so far |
| `RunViews.LetGoBetween` | execution/src/collab_hub_execution/intents.py:247-251 | an interleaving of refreshes in which the copy raises |
| `RunViews.SeenEmptied` | execution/src/collab_hub_execution/intents.py:215-251 | a moment at which a run with events reads as having none |
| `RunViews.RunViews.Forget` | execution/src/collab_hub_execution/intents.py:242-245 | drops one run and nothing else |
| `Intents.RequestCancel` | execution/src/collab_hub_execution/intents.py:61-82 | the request lands exactly when, as it lands, the run is on its way or at its Gate and every request before was outlived by a retry; no call leaves two requests without a retry between them; the answer is read afterwards |
| `Intents.RequestTurn` | execution/src/collab_hub_execution/intents.py:328-354 | a turn lands exactly when its text is short enough and the run, as it lands, is submitted or running; a refused one leaves nothing on the Track |
| `TurnDelivery.StepKeeps` | execution/src/collab_hub_execution/controller.py:126-153 | the delivering thread only ever holds the first unsettled turn, through any asks, events, stops and restarts |
| `TurnDelivery.SettledInOrder` | execution/src/collab_hub_execution/controller.py:126-153 | the settled turns are a prefix of the turns asked, each settled once |
| `TurnDelivery.TurnsRead` | execution/src/collab_hub_execution/intents.py:305-325 | a client reads every turn in order, waiting exactly when unsettled and the run has not ended, and otherwise unsettled ended with the run's own state |
| `TurnDelivery.TurnsShowTheirAnswers` | execution/src/collab_hub_execution/intents.py:305-325 | a turn is shown answered with a text exactly when that answer is on the Track, failed with an error exactly when that failure is, and with the text it was asked with |
| `TurnDelivery.SettledAsHanded` | execution/src/collab_hub_execution/controller.py:126-153 | what is recorded of a turn is what an earlier handing of it to the worker came to |
| `TurnDelivery.HandedIsRecorded` | execution/src/collab_hub_execution/controller.py:126-153 | what handing a turn came to is what is recorded of it next, unless the controller stops first |
| `Frontmatter.StripInlineComment` | api/src/collab_hub_api/cogs/frontmatter.py:416-483 | the index loop computes the scan from each state and index on |
| `Frontmatter.SplitFlowItems` | api/src/collab_hub_api/cogs/frontmatter.py:492-548 | the index loop computes the split from each state and index on |
| `Frontmatter.UnescapeDoubleQuoted` | api/src/collab_hub_api/cogs/frontmatter.py:609-649 | the index loop computes the unescaping, a read past the end included as a problem |
| `Frontmatter.ParseFlowList` | api/src/collab_hub_api/cogs/frontmatter.py:551-578 | the items parse in order, the first problem reported; `ReadsExactlyTheItems` and `ListReadsBack` say what they read as |
| `Frontmatter.FirstComment` | api/src/collab_hub_api/cogs/frontmatter.py:430-438 | the first `#` after a space or a tab, and no earlier one |
| `FrontmatterSafe.SplitSafe` | api/src/collab_hub_api/cogs/frontmatter.py:492-548 | run beside the comment scan from any joint state, the split leaves no item whose last character is an escaped quote |
| `FrontmatterSafe.ScalarSafe` | api/src/collab_hub_api/cogs/frontmatter.py:416-483 | a double-quoted scalar the comment scan accepts does not end with an escaped quote |
| `FrontmatterSafe.ReadingNeverReadsPast` | api/src/collab_hub_api/cogs/frontmatter.py:609-615 | for every text, reading a value never reads past the end of a string |
| `FrontmatterSafe.ScalarNeverReadsPast` | api/src/collab_hub_api/cogs/frontmatter.py:673-702 | for every text the comment strip accepts, scalar parsing never reads past its end, list blocks and metadata included |
| `FrontmatterReadBack.ScalarReadsBack` | api/src/collab_hub_api/cogs/frontmatter.py:673-702 | every string, double-quoted with escapes or single-quoted with doubling, with or without a comment, reads back as itself |
| `FrontmatterReadBack.ListReadsBack` | api/src/collab_hub_api/cogs/frontmatter.py:551-578 | every list whose items are strings quoted either way or plain text, mixed, with or without a comment, reads back as itself |
| `FrontmatterReadBack.PlainReadsBack` | api/src/collab_hub_api/cogs/frontmatter.py:652-702 | every plain text, with or without a comment after it, reads back as itself, a string where the tables say so |
| `FrontmatterEscapes.ReadsExactlyTheSpelled` | api/src/collab_hub_api/cogs/frontmatter.py:609-649 | between double quotes a text is read as a string exactly when it spells that string by the rules: each character as itself, by a letter that names it, or by its code point in two, four or eight hexadecimal digits |
| `FrontmatterEscapes.SpelledReadsBack` | api/src/collab_hub_api/cogs/frontmatter.py:107-127 | however the characters of a string are spelled, with or without a comment after it, the value reads as that string |
| `FrontmatterEscapes.ReadsExactlyTheDoubled` | api/src/collab_hub_api/cogs/frontmatter.py:689-698 | between single quotes a text is read as a string exactly when it is that string with each quote doubled |
| `FrontmatterEscapes.ReadsExactlyThePlain` | api/src/collab_hub_api/cogs/frontmatter.py:652-702 | trimmed text without a comment that opens with no quote or bracket reads as itself exactly when it is plain, and is refused exactly otherwise |
| `FrontmatterEscapes.ReadsExactlyTheItems` | api/src/collab_hub_api/cogs/frontmatter.py:551-578 | an item is read exactly when it is a scalar that reads so, is no mapping, and, unquoted, has no `?` and no colon first |
| `FrontmatterEscapes.HashOpensAComment` | api/src/collab_hub_api/cogs/frontmatter.py:466-483 | within a list a `#` after a blank, a comma or the bracket opens a comment, which leaves the list unterminated |
| `Containment.ContainsItself` | api/src/collab_hub_api/cogs/catalog.py:443-470 | containment is reflexive on all JSON trees, at the top and below |
| `Containment.ContainsTransitively` | api/src/collab_hub_api/cogs/catalog.py:443-470 | containment is transitive on all JSON trees, the rule for a bare scalar at the top included |
| `Containment.CombinedIsEach` | api/src/collab_hub_api/cogs/catalog.py:181-196 | the combined document holds of a card exactly when each filter alone does, and exactly when its fields say so |
| `Containment.ArraysAskBySet` | api/src/collab_hub_api/cogs/catalog.py:443-470 | an array asks only for the set of what it holds, in any order and number |
| `LikePattern.PatternIsSubstring` | api/src/collab_hub_api/cogs/catalog.py:344-347 | the escaped pattern matches exactly where the text occurs as it is |
| `LikePattern.UnescapedIsWild` | api/src/collab_hub_api/cogs/catalog.py:344-347 | unescaped, an underscore would match any one character, a percent sign any text, and a backslash what follows it |
| `LikePattern.ILikeIsSubstring` | api/src/collab_hub_api/cogs/catalog.py:356-367 | the SQL test and the in-memory one are the same: the text stands somewhere in the other, character by character, small and large letters of ASCII not told apart |
| `Catalog.PrefilterChangesNothing` | api/src/collab_hub_api/cogs/catalog.py:968-1024 | the prefiltered two-stage query selects the rows that choosing the newest per Cog and then filtering does |
| `Catalog.ListedExactly` | api/src/collab_hub_api/cogs/catalog.py:968-1024 | what either backend lists, column by column: a present, indexed candidate that passes the filters, and that no other candidate of its Cog is pushed later than, pushed at all when it was not, indexed later than when pushed at one time, or placed before when all else is the same |
| `Catalog.TextLessPrecedes` | api/src/collab_hub_api/cogs/catalog.py:368-380 | places are compared in code-point order: one text begins the other, or differs first by a smaller character |
| `Catalog.OneListing` | api/src/collab_hub_api/cogs/catalog.py:1011-1024 | given rows have one listing, so a page is the same page on either backend |
| `Catalog.SortBySorts` | api/src/collab_hub_api/cogs/catalog.py:637-656 | sorting by the key gives a sorted permutation |
| `Catalog.InMemoryCogCatalogStore.ListCurrent` | api/src/collab_hub_api/cogs/catalog.py:637-656 | a page, of at most 1000, of the listing of each Cog's newest row where it passes the filters, each row said column by column, in the order of the Cogs' ids; refused for a limit below one or a negative offset |
| `Catalog.InMemoryCogCatalogStore.Upsert` | api/src/collab_hub_api/cogs/catalog.py:542-563 | refused exactly for an unknown status, a naive time or a card with a NUL in it, changing nothing; else the row at its place is replaced and present again, and every other row is as it was |
| `Catalog.InMemoryCogCatalogStore.MarkRemoved` | api/src/collab_hub_api/cogs/catalog.py:579-592 | exactly the source's present rows that were neither enumerated nor shielded are marked, and nothing else of any row changes; the answer is how many were marked |
| `Catalog.NulIsInAText` | api/src/collab_hub_api/cogs/catalog.py:415-431 | the search of a card for a NUL finds one exactly when some string or field name of the tree has one |

## Left out

- LifecycleRunner.LifecycleRunner.Move: one run is modelled; that calls on different runs do not touch each other is not stated, nor is the wait of a resubmission or a cancel for a claim that is not yet accepting, which here is a call made later.
- RunnerLaws.AcceptedCancelDecides: an exception of the Track store itself, raised outside an attempt, is modelled as the host stopping, after which the claim is gone; the short time between dropping a claim and marking it finished on that path is not a state of the model. Raised inside an attempt it is caught (runner.py:831-849), which may append a further `interaction_usage` and carries on as a broken attempt: that path is not modelled.
- TrackLaws.OvershootIsOneReport: not claimed where the Track store raises inside an attempt and a second report is appended.
- Readers.RebuiltIsTally: that each report is counted once is not claimed for that path either.
- RunnerTheorems.ResultIsTheAnswer: a payload's length is that of its rendering in the model; the source counts bytes of UTF-8.
- LifecycleRunner.LifecycleRunner.Cancel: the wait for a claim that is not yet accepting is a call made later, the teardown the cancel claims is `CancelTornDown`, and a run nothing advances is claimed and cancelled by `Move`.
- Views.Build: who submitted, the name, the times and the reason of a view are carried from the Track as they are, and left out.
- RunMachine.Replay: reading events written before schema version 1 (`upgrade`) is not modelled; the rule for Tracks without recorded pickups is.
- Budget.BudgetTracker.Consume: cost is a real number, so the rounding of floats is not modelled.
- TrackLaws.EscalationIdsDistinct: the id's digest of the envelope is taken as injective and left out of the id, which is then a function of run, step and attempt; payload digests, token digests and random ids are taken as injective or fresh too.
- RunViews.RunViews.View: a refresh's two stores, of the view and of why it is unreadable, are one step; seen between them an entry reads as it does when the refresh falls between the two reads.
- RunViews.RunViews.Refresh: an exception of the Track store in a refresh is not modelled, and neither is the sorted list over all runs.
- TurnDelivery.SettledInOrder: the ids of turns are taken as distinct, and the single delivering thread as given by the controller's own check and its lock on the Track's host.
- TrackStore.InMemoryTrackStore.Append: payload storage is modelled in the runner's protocol only; the store's list of submitted runs is not modelled.
- PostgresTrack.StepKeeps: SQL text, pools, timeouts and isolation anomalies other than visibility at commit are not modelled; SQLite's store, which serializes writers by one lock, is the in-memory one for these purposes.
- Frontmatter.ParseFlowList: the tables of plain scalars (integer, float, boolean and timestamp forms, and values no loader can build) are parameters of the model, not spelled out.
- Frontmatter.StripInlineComment: splitting the document into lines and keys, block lists and the `metadata` mapping are not modelled; the value of each line is.
- LikePattern.ILikeIsSubstring: case folding is ASCII's; beyond it the two backends are documented to differ.
- Catalog.PrefilterChangesNothing: ties between rows are broken in code-point order on both sides; a database whose locale collates otherwise breaks ties in its own order.
- Catalog.InMemoryCogCatalogStore.ListCurrent: tags, media types, read errors, the sweep lock and the other listings are left out.
- Codecs of Ops, Gates and envelopes (ops.py, gates.py, envelope.py): left out, as they would add only field-copying round trips.
- Backends other than the direct one, locations, worker servers, the CLI, authentication, connectors, bridges and the admin interface: left out.
- A resubmission's canonical comparison of Ops is equality of the model's Ops.
