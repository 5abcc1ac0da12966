/** A run of one step, built as a behaviour a few of its holder's steps at a time: submitted and picked up, its step
    attempted by a worker that answers well, and what it reports of its spending. */
module BudgetSteps {
  import opened Wrappers
  import opened Budget
  import opened RunMachine
  import opened Ledger
  import opened TrackLaws
  import opened Readers
  import opened Runner
  import opened RunnerInv
  import opened RunnerLaws
  import opened RunnerWalks
  import L = LifecycleRunner

  const STEP := OpStep("only", Never, "")
  const OP := Op([STEP])
  const RUNNING := NEW_RUN.(state := Running)
  const ENVELOPE := Envelope(true, "", [], "")

  /** The worker answers well, and reports `raw`. Every step is taken at the time the run was submitted. */
  function Replies(raw: RawUsage): Choice {
    Choice(0, false, None, Reply.Returned(ENVELOPE, true, raw))
  }

  const QUIET := Replies(NoUsage)

  // ---- Building a behaviour ---------------------------------------------------------------------

  ghost predicate Holds(c: Config, states: seq<State>, track: seq<Event>, p: Pass, claims: nat) {
    Behaviour(c, states) && states[|states| - 1] == State(track, map[], Some(p), claims)
  }

  ghost predicate Free(c: Config, states: seq<State>, track: seq<Event>, claims: nat) {
    Behaviour(c, states) && states[|states| - 1] == State(track, map[], None, claims)
  }

  function Joined(track: seq<Event>, event: Option<Event>): seq<Event> {
    if event.Some? then track + [event.value] else track
  }

  /** The holder takes its next step. */
  lemma Moves(c: Config, states: seq<State>, track: seq<Event>, p: Pass, claims: nat, ch: Choice, f: Effect)
    returns (on: seq<State>)
    requires Holds(c, states, track, p, claims) && !p.pc.AwaitingCancel? && Drive(c, track, p, ch) == f
    requires f.pass.Some? && f.put.None?
    ensures Holds(c, on, Joined(track, f.event), f.pass.value, claims)
    ensures |on| == |states| + 1 && on[..|states|] == states
  {
    hide Drive, Behaviour;
    var s := State(track, map[], Some(p), claims);
    L.Longer(c, states);
    var s' := Took(s, f);
    assert Enabled(c, s, Advance(ch)) && Do(c, s, Advance(ch)) == s';
    hide Enabled, Do;
    L.BehaviourSnoc(c, states, Advance(ch), s');
    on := states + [s'];
  }

  lemma Claims(c: Config, states: seq<State>, track: seq<Event>, claims: nat, call: Call) returns (on: seq<State>)
    requires Free(c, states, track, claims) && (call.HostStart? || call.RetryRun? || call == Submit(OP, 0) || call == Submit(Op([]), 0))
    ensures Holds(c, on, track, Claimed(claims, call), claims + 1)
  {
    hide Behaviour;
    var s, s' := State(track, map[], None, claims), State(track, map[], Some(Claimed(claims, call)), claims + 1);
    L.Longer(c, states);
    assert Enabled(c, s, Acquire(call)) && Do(c, s, Acquire(call)) == s';
    hide Enabled, Do;
    L.BehaviourSnoc(c, states, Acquire(call), s');
    on := states + [s'];
  }

  lemma Stops(c: Config, states: seq<State>, track: seq<Event>, p: Pass, claims: nat) returns (on: seq<State>)
    requires Holds(c, states, track, p, claims)
    ensures Free(c, on, track, claims)
  {
    hide Behaviour;
    var s, s' := State(track, map[], Some(p), claims), State(track, map[], None, claims);
    L.Longer(c, states);
    assert Enabled(c, s, Crash) && Do(c, s, Crash) == s';
    hide Enabled, Do;
    L.BehaviourSnoc(c, states, Crash, s');
    on := states + [s'];
  }

  lemma Starts(c: Config)
    ensures Free(c, [START], [], 0)
  {
  }

  /** What a reader of the Track of a behaviour finds is what its ledger says. */
  lemma ReadsLedger(c: Config, states: seq<State>, track: seq<Event>)
    requires Behaviour(c, states) && states[|states| - 1].track == track
    ensures ReplayOf(track) == Fold(track).replayed && Rebuilt(c.budget, track) == Tally(c.budget, Fold(track).reports)
  {
    hide Behaviour, ReplayOf, Fold, Rebuilt, Tally, Legal;
    L.Longer(c, states);
    EveryTrackIsLegal(c, states, |states| - 1);
    ReplayNeverRefuses(c, track);
    RebuiltIsTally(c, track);
  }

  // ---- A run is submitted and picked up ---------------------------------------------------------

  function PickedUp(op: Op): seq<Event> {
    [OpSubmitted(op, 0)] + [RunPickedUp]
  }

  lemma PickedUpLedger(op: Op)
    ensures Fold([OpSubmitted(op, 0)]) == BLANK.(replayed := At(NEW_RUN), op := Some(op))
    ensures Fold(PickedUp(op)) == BLANK.(replayed := At(RUNNING), op := Some(op))
  {
    FoldSnoc([], OpSubmitted(op, 0));
    FoldSnoc([OpSubmitted(op, 0)], RunPickedUp);
    assert [] + [OpSubmitted(op, 0)] == [OpSubmitted(op, 0)];
  }

  /** To where its walk begins. */
  function Begun(op: Op): Pass {
    Claimed(0, Submit(op, 0)).(op := op, history := PickedUp(op), run := RUNNING, accepting := true, pc := Preparing)
  }

  lemma Begins(c: Config, op: Op) returns (states: seq<State>)
    requires op == OP || op == Op([])
    ensures Holds(c, states, PickedUp(op), Begun(op), 1)
  {
    hide Holds, Free, Behaviour, Drive, Fold, ReplayOf, Rebuilt;
    Starts(c);
    states := Claims(c, [START], [], 0, Submit(op, 0));
    var p0 := Claimed(0, Submit(op, 0));
    var p1 := p0.(pc := Writing, op := op);
    L.DriveReading(c, [], p0, QUIET);
    EmptyReplays();
    assert p0.(history := []) == p0;
    states := Moves(c, states, [], p0, 1, QUIET, Goes(p1));
    L.DriveWriting(c, [], p1, QUIET);
    var submitted := [OpSubmitted(op, 0)];
    var p2 := p1.(pc := Opening, history := submitted);
    assert [] + submitted == submitted;
    states := Moves(c, states, [], p1, 1, QUIET, Effect(Some(OpSubmitted(op, 0)), None, Some(p2)));
    HoldsLedger(c, states, submitted, p2, 1);
    PickedUpLedger(op);
    L.DriveOpening(c, submitted, p2, QUIET);
    var p3 := p2.(run := NEW_RUN, accepting := true, pc := PickingUp);
    states := Moves(c, states, submitted, p2, 1, QUIET, Goes(p3));
    DrivePickingUp(c, submitted, p3);
    states := Moves(c, states, submitted, p3, 1, QUIET, Effect(Some(RunPickedUp), None, Some(Begun(op))));
  }

  lemma EmptyReplays()
    ensures ReplayOf([]) == NeverSubmitted
  {
  }

  lemma HoldsLedger(c: Config, states: seq<State>, track: seq<Event>, p: Pass, claims: nat)
    requires Holds(c, states, track, p, claims)
    ensures ReplayOf(track) == Fold(track).replayed && Rebuilt(c.budget, track) == Tally(c.budget, Fold(track).reports)
  {
    hide Behaviour, ReplayOf, Fold, Rebuilt, Tally;
    ReadsLedger(c, states, track);
  }

  lemma DrivePickingUp(c: Config, track: seq<Event>, p: Pass)
    requires p.pc.PickingUp?
    ensures Drive(c, track, p, QUIET) == Records(Pickup(p.run), p, Preparing)
  {
    hide OnWalk, OnEnd, OnTeardown, OnOutcome, OnWorker;
  }

  // ---- Its one step is attempted, and its report passes a limit ---------------------------------

  function Prepared(p: Pass, completed: set<string>, spent: Spend): Pass {
    p.(completed := completed, retries := 0, i := 0, tracker := Some(spent), pc := AtStep)
  }

  /** The tracker is rebuilt and the completed steps are read. */
  lemma Prepares(c: Config, states: seq<State>, track: seq<Event>, p: Pass, claims: nat, spent: Spend) returns (on: seq<State>)
    requires Holds(c, states, track, p, claims) && p.pc.Preparing? && p.history == track && c.budget.Some?
    requires Fold(track).retries == 0 && Tally(c.budget, Fold(track).reports) == Some(spent)
    ensures Holds(c, on, track, Prepared(p, AsSet(Fold(track).completed), spent), claims)
  {
    hide Holds, Drive, Fold, Rebuilt, Tally, ReplayOf;
    HoldsLedger(c, states, track, p, claims);
    L.DrivePreparing(c, track, p, QUIET);
    on := Moves(c, states, track, p, claims, QUIET, Goes(Prepared(p, AsSet(Fold(track).completed), spent)));
  }

  const FRESH := Attempt(STEP, 0, false, None, false, false, None, Broken("Unknown"), false, NotAsked, false, false, [])

  const STARTED := StepStarted("only", 0)

  function StepDone(usage: Option<Usage>): Event {
    StepCompleted("only", 0, usage, Inline(""), None)
  }

  function Reported(usage: Option<Usage>): Event {
    InteractionUsage("only", 0, usage)
  }

  lemma Attempts(c: Config, states: seq<State>, track: seq<Event>, p: Pass) returns (on: seq<State>)
    requires Holds(c, states, track, p, 1) && p.pc.AtStep? && p.history == track && p.op == OP && p.i == 0
    requires p.completed == {} && p.cancelledBy.None? && p.run == RUNNING && p.retries == 0
    requires Fold(track).approved == map[] && Check(c, p, 0).None?
    ensures Holds(c, on, track + [STARTED],
                  p.(history := track + [STARTED], spentOn := Some("only"), attempt := Some(FRESH), pc := Materializing), 1)
  {
    hide Holds, Drive, Fold, Check;
    var p1 := p.(spentOn := Some("only"), pc := Resolving);
    L.DriveAtStep(c, track, p, QUIET);
    on := Moves(c, states, track, p, 1, QUIET, Goes(p1));
    L.DriveResolving(c, track, p1, QUIET);
    var p2 := p1.(history := track + [STARTED], attempt := Some(FRESH), pc := Checking);
    on := Moves(c, on, track, p1, 1, QUIET, Effect(Some(STARTED), None, Some(p2)));
    DriveWorker(c, track + [STARTED], p2, QUIET);
    on := Moves(c, on, track + [STARTED], p2, 1, QUIET, Goes(p2.(pc := Materializing)));
  }

  lemma DriveWorker(c: Config, track: seq<Event>, p: Pass, ch: Choice)
    requires p.attempt.Some? && !BeforeStepsOrEnds(p.pc) && !LettingGo(p.pc) && !Deciding(p.pc)
    ensures Drive(c, track, p, ch) == OnWorker(c, p, p.attempt.value, ch)
  {
    hide OnCall, OnWalk, OnEnd, OnTeardown, OnOutcome, OnWorker;
  }

  lemma DriveTeardown(c: Config, track: seq<Event>, p: Pass, ch: Choice)
    requires p.attempt.Some? && LettingGo(p.pc)
    ensures Drive(c, track, p, ch) == OnTeardown(p, p.attempt.value, ch)
  {
    hide OnCall, OnWalk, OnEnd, OnTeardown, OnOutcome, OnWorker;
  }

  predicate BeforeStepsOrEnds(pc: Pc) {
    BeforeSteps(pc) || AtBoundary(pc) || AtEnd(pc)
  }

  function Noting(track: seq<Event>, fact: Fact): seq<Event> {
    track + [WorkerFact("only", fact)]
  }

  /** The worker records a fact of itself, and the pass goes on. */
  lemma Notes(c: Config, states: seq<State>, track: seq<Event>, p: Pass, fact: Fact, pc: Pc) returns (on: seq<State>)
    requires Holds(c, states, track, p, 1) && p.history == track && p.attempt.Some? && p.attempt.value.step == STEP
    requires p.cancelledBy.None? && p.attempt.value.token.None?
    requires || (p.pc == Recording && fact == Materialized && pc == Readying)
             || (p.pc == Readying && fact == Ready && pc == Invoking)
             || (p.pc == Invoking && fact == InteractionStarted && pc == Interacting)
             || (p.pc == Idling && fact == Idle && pc == TearingStart)
             || (p.pc == TearingStart && fact == TeardownStarted && pc == TearingDown)
    ensures Holds(c, on, Noting(track, fact), p.(history := Noting(track, fact), pc := pc), 1)
  {
    hide Holds, Drive, OnInteracting;
    if LettingGo(p.pc) {
      DriveTeardown(c, track, p, QUIET);
    } else {
      DriveWorker(c, track, p, QUIET);
    }
    on := Moves(c, states, track, p, 1, QUIET, Effect(Some(WorkerFact("only", fact)), None, Some(p.(history := Noting(track, fact), pc := pc))));
  }

  function AnsweredAttempt(usage: Option<Usage>): Attempt {
    FRESH.(worker := true, answered := true, usage := usage, outcome := Answer(ENVELOPE))
  }

  function UpToAsking(track: seq<Event>): seq<Event> {
    Noting(Noting(Noting(track, Materialized), Ready), InteractionStarted)
  }

  lemma WorkerGoes(c: Config, track: seq<Event>, p: Pass, raw: RawUsage, usage: Option<Usage>)
    requires p.attempt.Some? && p.cancelledBy.None?
    ensures p.pc.Materializing? ==> Drive(c, track, p, QUIET) == Goes(With(p, p.attempt.value.(worker := true, token := None), Recording))
    ensures p.pc.Interacting? && p.attempt == Some(FRESH.(worker := true)) && ValidateUsage(raw, c.budget) == Ok(usage) ==>
              Drive(c, track, p, Replies(raw)) == Goes(With(p, AnsweredAttempt(usage), Accounting(usage)))
    ensures p.pc.Accounting? ==>
              Drive(c, track, p, QUIET) ==
                Writes(InteractionUsage(p.attempt.value.step.name, p.attempt.value.number, p.pc.report), p.(pc := Releasing))
  {
    hide ValidateUsage;
    if !BeforeStepsOrEnds(p.pc) && !LettingGo(p.pc) && !Deciding(p.pc) {
      DriveWorker(c, track, p, QUIET);
      DriveWorker(c, track, p, Replies(raw));
    }
    hide Drive;
  }

  lemma TeardownGoes(c: Config, track: seq<Event>, p: Pass, usage: Option<Usage>)
    requires p.attempt.Some?
    ensures p.pc.Releasing? && p.attempt == Some(AnsweredAttempt(usage)) ==>
              Drive(c, track, p, QUIET) == Goes(With(p, AnsweredAttempt(usage).(released := true, orderly := true), Idling))
    ensures p.pc.TearingDown? && p.attempt == Some(AnsweredAttempt(usage).(released := true, orderly := true)) ==>
              Drive(c, track, p, QUIET) == Goes(With(p, GoneAttempt(usage), Judging))
  {
    if LettingGo(p.pc) {
      DriveTeardown(c, track, p, QUIET);
      assert [] + [ByDriver(false)] == [ByDriver(false)];
    }
    hide Drive;
  }

  lemma Answers(c: Config, states: seq<State>, track: seq<Event>, p: Pass, raw: RawUsage, usage: Option<Usage>)
    returns (on: seq<State>)
    requires Holds(c, states, track, p, 1) && p.pc.Materializing? && p.history == track && p.attempt == Some(FRESH)
    requires p.cancelledBy.None? && ValidateUsage(raw, c.budget) == Ok(usage)
    ensures var after := UpToAsking(track) + [Reported(usage)];
            Holds(c, on, after, p.(history := after, attempt := Some(AnsweredAttempt(usage)), pc := Releasing), 1)
  {
    hide Holds, Drive, ValidateUsage;
    WorkerGoes(c, track, p, raw, usage);
    var p1 := p.(attempt := Some(FRESH.(worker := true)), pc := Recording);
    on := Moves(c, states, track, p, 1, QUIET, Goes(p1));
    on := Notes(c, on, track, p1, Materialized, Readying);
    var p2 := p1.(history := Noting(track, Materialized), pc := Readying);
    on := Notes(c, on, Noting(track, Materialized), p2, Ready, Invoking);
    var p3 := p2.(history := Noting(Noting(track, Materialized), Ready), pc := Invoking);
    on := Notes(c, on, p3.history, p3, InteractionStarted, Interacting);
    var asked := UpToAsking(track);
    var p4 := p3.(history := asked, pc := Interacting);
    WorkerGoes(c, asked, p4, raw, usage);
    var p5 := p4.(attempt := Some(AnsweredAttempt(usage)), pc := Accounting(usage));
    on := Moves(c, on, asked, p4, 1, Replies(raw), Goes(p5));
    WorkerGoes(c, asked, p5, raw, usage);
    var report := Reported(usage);
    on := Moves(c, on, asked, p5, 1, QUIET, Effect(Some(report), None, Some(p5.(history := asked + [report], pc := Releasing))));
  }

  function GoneAttempt(usage: Option<Usage>): Attempt {
    AnsweredAttempt(usage).(released := true, orderly := true, torn := [ByDriver(false)])
  }

  lemma LetsGo(c: Config, states: seq<State>, track: seq<Event>, p: Pass, usage: Option<Usage>) returns (on: seq<State>)
    requires Holds(c, states, track, p, 1) && p.pc.Releasing? && p.history == track && p.attempt == Some(AnsweredAttempt(usage))
    requires p.cancelledBy.None?
    ensures var after := Noting(Noting(track, Idle), TeardownStarted);
            Holds(c, on, after, p.(history := after, attempt := Some(GoneAttempt(usage)), pc := Judging), 1)
  {
    hide Holds, Drive;
    TeardownGoes(c, track, p, usage);
    var p1 := p.(attempt := Some(AnsweredAttempt(usage).(released := true, orderly := true)), pc := Idling);
    on := Moves(c, states, track, p, 1, QUIET, Goes(p1));
    on := Notes(c, on, track, p1, Idle, TearingStart);
    var p2 := p1.(history := Noting(track, Idle), pc := TearingStart);
    on := Notes(c, on, Noting(track, Idle), p2, TeardownStarted, TearingDown);
    var p3 := p2.(history := Noting(p2.history, TeardownStarted), pc := TearingDown);
    TeardownGoes(c, p3.history, p3, usage);
    on := Moves(c, on, p3.history, p3, 1, QUIET, Goes(p3.(attempt := Some(GoneAttempt(usage)), pc := Judging)));
  }

  /** The step is recorded completed, and the budget stop is about to be written. */
  lemma RecordsStep(c: Config, states: seq<State>, track: seq<Event>, p: Pass, usage: Option<Usage>)
    returns (on: seq<State>, after: Pass)
    requires Holds(c, states, track, p, 1) && p.pc.Judging? && p.history == track && p.attempt == Some(GoneAttempt(usage))
    requires p.cancelledBy.None? && p.tracker.Some? && p.op == OP && p.i == 0
    requires c.budget.Some? && Exceeded(c.budget.value, Fold(track).startedAt, Add(p.tracker.value, usage), 0).Some?
    ensures Holds(c, on, track + [StepDone(usage)], after, 1)
    ensures after.pc.Closing? && after.pc.end.OverBudget?
  {
    hide Holds, Drive, Fold, Exceeded, Add;
    var spent := Add(p.tracker.value, usage);
    var stop := Exceeded(c.budget.value, Fold(track).startedAt, spent, 0);
    var p1 := p.(tracker := Some(spent), stop := stop, pc := Keeping);
    L.DriveJudging(c, track, p, QUIET);
    on := Moves(c, states, track, p, 1, QUIET, Goes(p1));
    var p2 := p1.(locked := true, pc := KeepWriting);
    L.DriveKeeping(c, track, p1, QUIET);
    on := Moves(c, on, track, p1, 1, QUIET, Effect(None, None, Some(p2)));
    L.DriveKeepWriting(c, track, p2, QUIET);
    var e := StepDone(usage);
    after := p2.(i := 1, locked := false, history := track + [e], pc := Closing(OverBudget(stop.value, "only")));
    on := Moves(c, on, track, p2, 1, QUIET, Effect(Some(e), None, Some(after)));
  }
}
