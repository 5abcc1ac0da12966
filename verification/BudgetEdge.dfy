/** A run that completes over its budget (runner.py:800-812). The worker's last report passes a limit; its step is
    recorded completed; the host stops before the budget stop is written; the restarted host records the run
    interrupted, and a retry finds no step left to do, so nothing is checked. RunnerWalks.dfy proves when this can
    happen at all: exactly when a pass finds every step of its Op completed already. */
module BudgetEdge {
  import opened Wrappers
  import opened Budget
  import opened RunMachine
  import opened Ledger
  import opened TrackLaws
  import opened Readers
  import opened Runner
  import opened RunnerInv
  import opened RunnerLaws
  import opened RunnerWalks
  import opened BudgetSteps
  import L = LifecycleRunner

  // ---- The host stops, restarts, and the run is retried -----------------------------------------

  /** The Track of a run whose only step overspent, as the host that recorded it stops. */
  function Overspent(usage: Option<Usage>): seq<Event> {
    Noting(Noting(UpToAsking(PickedUp(OP) + [STARTED]) + [Reported(usage)], Idle), TeardownStarted)
    + [StepDone(usage)]
  }

  /** Everything a Track says when its run has completed its one step, but where the run is. */
  function Worked(usage: Option<Usage>, at: Run): Book {
    BLANK.(replayed := At(at), op := Some(OP), completed := ["only"], accounted := {"only"}, reports := [usage])
  }

  lemma FactLedger(track: seq<Event>, fact: Fact)
    ensures Fold(Noting(track, fact)).replayed.At? || !Fold(track).replayed.At?
    ensures Fold(track).replayed.At? ==> Fold(Noting(track, fact)) == Fold(track)
  {
    FoldSnoc(track, WorkerFact("only", fact));
  }

  lemma AttemptLedger(b: Book, usage: Option<Usage>)
    requires b == BLANK.(replayed := At(RUNNING), op := Some(OP))
    ensures var started := Post(b, STARTED);
            && started == b.(flight := Some(Flight("only", 0, None, None, None)))
            && Post(Post(started, Reported(usage)), StepDone(usage)) == Worked(usage, RUNNING)
  {
    assert [] + [usage] == [usage] && [] + ["only"] == ["only"] && {} + {"only"} == {"only"};
  }

  lemma OverspentLedger(usage: Option<Usage>)
    ensures Fold(Overspent(usage)) == Worked(usage, RUNNING)
    ensures var before := Overspent(usage)[..|Overspent(usage)| - 1]; Fold(before).startedAt == 0
  {
    hide Fold, Post;
    var t0 := PickedUp(OP);
    PickedUpLedger(OP);
    AttemptLedger(Fold(t0), usage);
    var t1 := t0 + [STARTED];
    FoldSnoc(t0, STARTED);
    FactLedger(t1, Materialized);
    FactLedger(Noting(t1, Materialized), Ready);
    FactLedger(Noting(Noting(t1, Materialized), Ready), InteractionStarted);
    var t2 := UpToAsking(t1) + [Reported(usage)];
    FoldSnoc(UpToAsking(t1), Reported(usage));
    ReportLedger(Fold(UpToAsking(t1)), usage);
    FactLedger(t2, Idle);
    FactLedger(Noting(t2, Idle), TeardownStarted);
    var t3 := Noting(Noting(t2, Idle), TeardownStarted);
    FoldSnoc(t3, StepDone(usage));
    assert Overspent(usage)[..|Overspent(usage)| - 1] == t3;
  }

  lemma ReportLedger(b: Book, usage: Option<Usage>)
    ensures Post(b, Reported(usage)).startedAt == b.startedAt
    ensures b.replayed.At? ==> Post(b, Reported(usage)).replayed == b.replayed
  {
  }

  /** A call whose pass is over lets the run go. */
  lemma Releases(c: Config, states: seq<State>, track: seq<Event>, p: Pass, claims: nat) returns (on: seq<State>)
    requires Holds(c, states, track, p, claims) && p.pc.Done?
    ensures Free(c, on, track, claims)
  {
    hide Behaviour, OnCall, OnWalk, OnEnd, OnTeardown, OnOutcome, OnWorker;
    var s, s' := State(track, map[], Some(p), claims), State(track, map[], None, claims);
    L.Longer(c, states);
    assert Enabled(c, s, Advance(QUIET)) && Do(c, s, Advance(QUIET)) == s';
    hide Enabled, Do, Drive;
    L.BehaviourSnoc(c, states, Advance(QUIET), s');
    on := states + [s'];
  }

  const STOPPED := RUNNING.(state := Interrupted)

  lemma IsInterrupted(c: Config, states: seq<State>, track: seq<Event>) returns (on: seq<State>)
    requires Free(c, states, track, 1) && Fold(track).replayed == At(RUNNING) && Fold(track).op == Some(OP)
    ensures Free(c, on, track + [RunInterrupted], 2)
  {
    hide Holds, Free, Drive, Fold, ReplayOf, Rebuilt;
    on := Claims(c, states, track, 1, HostStart);
    var p := Claimed(1, HostStart);
    HoldsLedger(c, on, track, p, 2);
    L.DriveReading(c, track, p, QUIET);
    var p1 := p.(history := track, run := RUNNING, op := OP, pc := Writing);
    on := Moves(c, on, track, p, 2, QUIET, Goes(p1));
    L.DriveWriting(c, track, p1, QUIET);
    var p2 := p1.(history := track + [RunInterrupted], run := STOPPED, pc := Done);
    on := Moves(c, on, track, p1, 2, QUIET, Effect(Some(RunInterrupted), None, Some(p2)));
    on := Releases(c, on, track + [RunInterrupted], p2, 2);
  }

  const RETRIED := RetryRequested(Interrupted, Same)

  /** A retry claims the run, to where its walk begins. */
  function Retried(track: seq<Event>): Pass {
    Claimed(2, RetryRun).(op := OP, history := track + [RETRIED], run := RUNNING, accepting := true, pc := Preparing)
  }

  lemma IsRetried(c: Config, states: seq<State>, track: seq<Event>, usage: Option<Usage>) returns (on: seq<State>)
    requires Free(c, states, track, 2) && Fold(track) == Worked(usage, STOPPED)
    ensures Holds(c, on, track + [RETRIED], Retried(track), 3)
  {
    hide Holds, Free, Drive, Fold, Post, ReplayOf, Rebuilt;
    FoldSnoc(track, RETRIED);
    MovedLedger(usage);
    on := Claims(c, states, track, 2, RetryRun);
    var p := Claimed(2, RetryRun);
    HoldsLedger(c, on, track, p, 3);
    L.DriveReading(c, track, p, QUIET);
    var p1 := p.(history := track, run := STOPPED, op := OP, pc := Writing);
    on := Moves(c, on, track, p, 3, QUIET, Goes(p1));
    L.DriveWriting(c, track, p1, QUIET);
    var p2 := p1.(history := track + [RETRIED], run := RUNNING, pc := Opening);
    on := Moves(c, on, track, p1, 3, QUIET, Effect(Some(RETRIED), None, Some(p2)));
    HoldsLedger(c, on, track + [RETRIED], p2, 3);
    L.DriveOpening(c, track + [RETRIED], p2, QUIET);
    on := Moves(c, on, track + [RETRIED], p2, 3, QUIET, Goes(Retried(track)));
  }

  /** A walk that reached no step ends the run completed. */
  lemma Completes(c: Config, states: seq<State>, track: seq<Event>, p: Pass, claims: nat) returns (on: seq<State>)
    requires Holds(c, states, track, p, claims) && AtWalksEnd(p) && p.history == track && p.spentOn.None?
    requires p.cancelledBy.None? && p.run == RUNNING
    ensures Behaviour(c, on) && |on| >= 2
    ensures var before, last := on[|on| - 2], on[|on| - 1];
            before.track == track && last.track == track + [RunCompleted] && last.claim.Some? && last.claim.value.spentOn.None?
  {
    hide Drive, Check, Behaviour;
    EndOfWalkGoes(c, track, p, QUIET);
    var p1 := p.(pc := Closing(Finished));
    on := Moves(c, states, track, p, claims, QUIET, Goes(p1));
    L.DriveClosing(c, track, p1, QUIET);
    var p2 := p1.(locked := true, pc := Ending(Finished));
    on := Moves(c, on, track, p1, claims, QUIET, Goes(p2));
    L.DriveEnding(c, track, p2, QUIET);
    var p3 := p2.(accepting := false, locked := false, run := RUNNING.(state := Completed), history := track + [RunCompleted], pc := Done);
    ghost var before := on;
    L.Longer(c, before);
    on := Moves(c, before, track, p2, claims, QUIET, Effect(Some(RunCompleted), None, Some(p3)));
    assert on[|on| - 2] == before[|before| - 1];
  }

  /** An Op without steps completes under any budget that nothing at all already reaches. */
  lemma CompletesUnchecked(c: Config) returns (states: seq<State>)
    requires c.budget.Some? && !Within(c.budget.value, NOTHING)
    ensures Behaviour(c, states) && |states| >= 2
    ensures var last := states[|states| - 1];
            && last.track == [OpSubmitted(Op([]), 0), RunPickedUp, RunCompleted]
            && last.claim.Some? && last.claim.value.spentOn.None?
            && Rebuilt(c.budget, states[|states| - 2].track) == Some(NOTHING)
  {
    hide Holds, Fold, Rebuilt, Behaviour, Within, Drive, ReplayOf;
    var op := Op([]);
    states := Begins(c, op);
    PickedUpLedger(op);
    HoldsLedger(c, states, PickedUp(op), Begun(op), 1);
    states := Prepares(c, states, PickedUp(op), Begun(op), 1, NOTHING);
    states := Completes(c, states, PickedUp(op), Prepared(Begun(op), AsSet(Fold(PickedUp(op)).completed), NOTHING), 1);
  }

  /** Under any budget that a run may start under, any report that is accepted and passes a limit: there is a history
      in which the run completes though what is recorded as spent is known and not within its limits. */
  lemma OvershootCompletes(c: Config, raw: RawUsage, usage: Option<Usage>) returns (states: seq<State>)
    requires c.budget.Some? && Exceeded(c.budget.value, 0, NOTHING, 0).None?
    requires ValidateUsage(raw, c.budget) == Ok(usage) && !Within(c.budget.value, Add(NOTHING, usage))
    ensures Behaviour(c, states) && |states| >= 2
    ensures var before, last := states[|states| - 2], states[|states| - 1];
            && before.track == Overspent(usage) + [RunInterrupted, RETRIED]
            && last.track == before.track + [RunCompleted]
            && Rebuilt(c.budget, before.track) == Some(Add(NOTHING, usage))
  {
    hide Holds, Free, Fold, Rebuilt, Tally, Behaviour, Within, Drive, ReplayOf, Exceeded, ValidateUsage, Overspent;
    var p;
    states, p := Overspends(c, raw, usage);
    var done := Overspent(usage);
    states := Stops(c, states, done, p, 1);
    LaterLedger(c, usage, raw);
    states := IsInterrupted(c, states, done);
    var stopped := done + [RunInterrupted];
    states := IsRetried(c, states, stopped, usage);
    var track := stopped + [RETRIED];
    var spent := Add(NOTHING, usage);
    HoldsLedger(c, states, track, Retried(stopped), 3);
    states := Prepares(c, states, track, Retried(stopped), 3, spent);
    var q := Prepared(Retried(stopped), AsSet(["only"]), spent);
    L.DriveAtStep(c, track, q, QUIET);
    assert "only" in AsSet(["only"]);
    states := Moves(c, states, track, q, 3, QUIET, Goes(q.(i := 1)));
    states := Completes(c, states, track, q.(i := 1), 3);
    assert track == done + [RunInterrupted, RETRIED];
  }

  lemma Overspends(c: Config, raw: RawUsage, usage: Option<Usage>) returns (states: seq<State>, p: Pass)
    requires c.budget.Some? && Exceeded(c.budget.value, 0, NOTHING, 0).None?
    requires ValidateUsage(raw, c.budget) == Ok(usage) && !Within(c.budget.value, Add(NOTHING, usage))
    ensures Holds(c, states, Overspent(usage), p, 1)
  {
    hide Holds, Fold, Rebuilt, Tally, Behaviour, Within, Drive, ReplayOf, Exceeded, ValidateUsage;
    var track := PickedUp(OP);
    states := Begins(c, OP);
    PickedUpLedger(OP);
    HoldsLedger(c, states, track, Begun(OP), 1);
    NothingSpent(c.budget);
    states := Prepares(c, states, track, Begun(OP), 1, NOTHING);
    p := Prepared(Begun(OP), AsSet(Fold(track).completed), NOTHING);
    assert p.completed == {};
    states := Attempts(c, states, track, p);
    p := p.(history := track + [STARTED], spentOn := Some("only"), attempt := Some(FRESH), pc := Materializing);
    states := Answers(c, states, track + [STARTED], p, raw, usage);
    track := UpToAsking(track + [STARTED]) + [Reported(usage)];
    p := p.(history := track, attempt := Some(AnsweredAttempt(usage)), pc := Releasing);
    states := LetsGo(c, states, track, p, usage);
    track := Noting(Noting(track, Idle), TeardownStarted);
    p := p.(history := track, attempt := Some(GoneAttempt(usage)), pc := Judging);
    OverspentLedger(usage);
    assert Overspent(usage)[..|Overspent(usage)| - 1] == track;
    ExceededExactly(c.budget.value, 0, Add(NOTHING, usage), 0);
    states, p := RecordsStep(c, states, track, p, usage);
  }

  lemma NothingSpent(budget: Option<RunBudget>)
    ensures Tally(budget, []) == Some(NOTHING)
  {
  }

  lemma MovedLedger(usage: Option<Usage>)
    ensures Post(Worked(usage, RUNNING), RunInterrupted) == Worked(usage, STOPPED)
    ensures Post(Worked(usage, STOPPED), RETRIED) == Worked(usage, RUNNING)
  {
  }

  lemma LaterLedger(c: Config, usage: Option<Usage>, raw: RawUsage)
    requires ValidateUsage(raw, c.budget) == Ok(usage)
    ensures Fold(Overspent(usage)) == Worked(usage, RUNNING)
    ensures Fold(Overspent(usage) + [RunInterrupted]) == Worked(usage, STOPPED)
    ensures Fold(Overspent(usage) + [RunInterrupted] + [RETRIED]) == Worked(usage, RUNNING)
    ensures Tally(c.budget, [usage]) == Some(Add(NOTHING, usage))
  {
    hide Fold, Post, ValidateUsage, Overspent, Worked;
    MovedLedger(usage);
    OverspentLedger(usage);
    FoldSnoc(Overspent(usage), RunInterrupted);
    FoldSnoc(Overspent(usage) + [RunInterrupted], RETRIED);
    TallySnoc(c.budget, [], usage);
    assert [] + [usage] == [usage];
  }
}
