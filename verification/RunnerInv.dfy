/** What holds of the call that moves a run, at every point it can be at, against the ledger of the Track. */
module RunnerInv {
  import opened Wrappers
  import opened Budget
  import opened RunMachine
  import opened Ledger
  import opened LedgerSound
  import opened Readers
  import opened Runner
  import Keys

  // ---- The worker and its teardown --------------------------------------------------------------

  /** The calls an executor's teardown can get for one worker: one, by whoever claimed it; and a second by the
      driver only after a cancel's own one raised. */
  predicate Shape(torn: seq<Torn>) {
    || torn == []
    || (|torn| == 1)
    || (|torn| == 2 && torn[0] == ByCancel(true) && torn[1].ByDriver?)
  }

  /** No teardown has been claimed, or a cancel has claimed it and may be at it. */
  predicate ClaimedByCancel(a: Attempt) {
    a.released && match a.cancelTeardown
                  case NotAsked => false
                  case Asked => a.torn == []
                  case Returned(raised) => a.torn == [ByCancel(raised)]
  }

  predicate Unclaimed(a: Attempt) {
    !a.released && a.cancelTeardown.NotAsked? && a.torn == []
  }

  /** The attempt has let go of its worker, if it had one: torn down, or its last teardown raised. */
  predicate LetGo(a: Attempt) {
    if a.worker then
      a.released && !a.cancelTeardown.Asked? && Shape(a.torn) && a.torn != [] && a.torn[|a.torn| - 1].raised == a.teardownError
    else Unclaimed(a) && !a.teardownError
  }

  predicate NoWorkerYet(pc: Pc) {
    pc.Checking? || pc.Materializing?
  }

  predicate TeardownAt(a: Attempt, pc: Pc) {
    if NoWorkerYet(pc) then !a.worker && Unclaimed(a) && !a.teardownError && !a.orderly
    else if pc.Judging? then LetGo(a)
    else if pc.NotingFailure? then a.worker && LetGo(a) && a.teardownError
    else if pc.Stopping? then a.worker && LetGo(a) && !a.teardownError && a.started
    else
      && a.worker && !a.teardownError
      && (if pc.AwaitingCancel? then ClaimedByCancel(a) && !a.orderly
          else if pc.Idling? || pc.TearingStart? then a.released && a.cancelTeardown.NotAsked? && a.torn == []
          else if pc.TearingDown? then
            && a.released
            && ((a.cancelTeardown.NotAsked? && a.torn == []) ||
                (a.cancelTeardown == CancelTeardown.Returned(true) && a.torn == [ByCancel(true)]))
          else (Unclaimed(a) || ClaimedByCancel(a)) && !a.orderly)
  }

  // ---- The attempt against the ledger -----------------------------------------------------------

  predicate LiveIs(a: Attempt, f: Flight) {
    f.live == if a.started then Some(Live(Keys.Instance(a.step.name, a.number), a.token.GetOr(""))) else None
  }

  predicate NotStarted(pc: Pc) {
    NoWorkerYet(pc) || pc.Recording? || pc.StartingWorker?
  }

  predicate LiveAt(a: Attempt, f: Flight, pc: Pc) {
    if NotStarted(pc) then !a.started && f.live.None?
    else if pc.Judging? then f.live.Some? ==> a.teardownError
    else pc.NotingFailure? || LiveIs(a, f)
  }

  /** The tracker carried is the one a rebuild from the Track would give. */
  predicate Tracked(c: Config, b: Book, tracker: Option<Spend>) {
    if c.budget.None? then tracker.None? else tracker.Some? && Tally(c.budget, b.reports) == tracker
  }

  predicate Charged(c: Config, b: Book, a: Attempt, tracker: Option<Spend>) {
    a.outcome.Answer? ==>
      && b.flight.Some? && b.flight.value.usage == Some(a.usage) && Accountable(c.budget, a.usage)
      && if c.budget.None? then tracker.None?
         else tracker.Some? && Tally(c.budget, b.reports) == Some(Add(tracker.value, a.usage))
  }

  predicate NotAnswered(pc: Pc) {
    NotStarted(pc) || pc.Readying? || pc.Invoking? || pc.Interacting?
  }

  predicate UsageAt(c: Config, b: Book, p: Pass, a: Attempt, pc: Pc) {
    if NotAnswered(pc) || pc.Accounting? then
      && b.flight.Some? && b.flight.value.usage.None? && Tracked(c, b, p.tracker)
      && (a.outcome.Answer? ==> pc.Accounting? && pc.report == a.usage && Accountable(c.budget, a.usage))
    else Charged(c, b, a, p.tracker)
  }

  // ---- The pass ---------------------------------------------------------------------------------

  predicate Fresh(p: Pass) {
    !p.accepting && !p.locked && p.cancelledBy.None? && p.attempt.None? && p.spentOn.None? && p.tracker.None? && p.stop.None?
  }

  predicate Named(p: Pass) {
    p.cancelledBy.Some? ==> p.cancelledBy.value != ""
  }

  /** The run the pass carries is the one the Track says it is. */
  ghost predicate AsOnTrack(b: Book, p: Pass) {
    b.replayed == At(p.run) && b.op == Some(p.op)
  }

  ghost predicate Moving(b: Book, p: Pass) {
    AsOnTrack(b, p) && p.run.state.Running? && Distinct(p.op) && p.accepting && Named(p)
  }

  /** Index `i` is where a walk over the Op's steps, past the ones read as completed, can be. */
  predicate Walks(completedNow: seq<string>, steps: seq<OpStep>, i: nat, completed: set<string>) {
    && i <= |completedNow|
    && (forall s :: s in completed ==> s in completedNow)
    && (forall k :: i <= k < |completedNow| && k < |steps| ==> steps[k].name in completed)
  }

  ghost predicate Walking(b: Book, p: Pass) {
    Moving(b, p) && p.retries == b.retries && Walks(b.completed, p.op.steps, p.i, p.completed)
  }

  predicate Settled(p: Pass) {
    p.attempt.Some? ==> LetGo(p.attempt.value) && !p.attempt.value.teardownError
  }

  ghost predicate Between(c: Config, b: Book, p: Pass) {
    Walking(b, p) && b.flight.None? && Settled(p) && Tracked(c, b, p.tracker)
  }

  predicate OnStep(b: Book, p: Pass) {
    p.i == |b.completed| && p.i < |p.op.steps| && p.spentOn.Some?
  }

  ghost predicate Flying(b: Book, p: Pass) {
    && Walking(b, p) && OnStep(b, p) && p.attempt.Some? && b.flight.Some?
    && var a, f := p.attempt.value, b.flight.value;
       a.step == p.op.steps[p.i] && f.step == a.step.name && f.number == a.number && f.failed.None?
  }

  /** An accounted answer, with the worker gone: what a step completes or escalates with. */
  ghost predicate Answering(c: Config, b: Book, p: Pass) {
    && Flying(b, p)
    && var a, f := p.attempt.value, b.flight.value;
       LetGo(a) && Succeeded(a) && f.live.None? && f.usage == Some(a.usage) && Accountable(c.budget, a.usage)
       && Tracked(c, b, p.tracker)
  }

  /** What the step's Gate says of the answer: whether a person must look at it. */
  predicate GateSays(p: Pass, escalates: bool) {
    p.attempt.Some? && p.attempt.value.outcome.Answer?
    && Evaluate(p.attempt.value.step.gate, p.attempt.value.outcome.envelope.problems).Escalate? == escalates
  }

  /** Whatever attempt the pass made last has let go of its worker; one that leaked it is still in flight. */
  ghost predicate Leaving(b: Book, p: Pass) {
    p.attempt.Some? ==>
      var a := p.attempt.value;
      LetGo(a) && (a.teardownError ==> InFlight(b, a.step.name, a.number) && b.flight.value.failed.None?)
  }

  ghost predicate EndAt(c: Config, b: Book, p: Pass, end: End) {
    match end
    case Finished =>
      && Between(c, b, p) && p.i == |p.op.steps|
      && (c.budget.Some? && p.spentOn.Some? ==> Within(c.budget.value, p.tracker.value))
    case OverBudget(_, _) => Moving(b, p) && b.flight.None? && Settled(p)
    case Unaccountable => Moving(b, p) && b.flight.None? && Settled(p)
    case AtGate => Answering(c, b, p) && GateSays(p, true)
    case Broke => Flying(b, p) && LetGo(p.attempt.value) && !Succeeded(p.attempt.value)
    case OnlyIfCancelled => Moving(b, p) && Leaving(b, p) && p.cancelledBy.Some?
  }

  /** Before the run is advanced. */
  ghost predicate CallInv(b: Book, p: Pass) {
    match p.pc
    case Reading =>
      Fresh(p) && p.run == NEW_RUN && (p.call.Submit? ==> Distinct(p.call.op)) && (p.call.CancelRun? ==> p.call.by_actor != "")
    case Writing =>
      && Fresh(p)
      && (if p.call.Submit? then Distinct(p.call.op) && p.op == p.call.op && p.run == NEW_RUN else AsOnTrack(b, p))
      && (p.call.RetryRun? ==> p.run.state.Failed? || p.run.state.Interrupted?)
      && (p.call.CancelRun? ==> p.call.by_actor != "")
    case Opening => Fresh(p) && AsOnTrack(b, p) && Distinct(p.op) && b.flight.None? && (p.run.state.Submitted? || p.run.state.Running?)
    case PickingUp =>
      && AsOnTrack(b, p) && Distinct(p.op) && p.run.state.Submitted? && p.accepting && !p.locked && Named(p)
      && p.attempt.None? && p.spentOn.None? && p.tracker.None? && p.stop.None?
    case Preparing =>
      && Moving(b, p) && !p.locked && b.flight.None? && p.attempt.None? && p.spentOn.None? && p.tracker.None? && p.stop.None?
    case _ => false
  }

  /** At a step boundary. */
  ghost predicate StepInv(c: Config, b: Book, p: Pass) {
    && Between(c, b, p) && !p.locked && p.stop.None?
    && match p.pc
       case Approving => OnStep(b, p) && p.op.steps[p.i].name in b.approved
       case Resolving =>
         && OnStep(b, p) && p.op.steps[p.i].name !in b.approved
         && (c.budget.Some? ==> Within(c.budget.value, p.tracker.value))
       case _ => true
  }

  /** While an attempt is made, to the point where its worker is gone. */
  ghost predicate AttemptInv(c: Config, b: Book, p: Pass) {
    && Flying(b, p) && !p.locked && p.stop.None?
    && var a := p.attempt.value;
       TeardownAt(a, p.pc) && LiveAt(a, b.flight.value, p.pc) && UsageAt(c, b, p, a, p.pc)
       && (p.pc.StartingWorker? ==> a.token.Some?)
  }

  /** From the decision on: keeping a result, or writing the run's end. */
  ghost predicate EndInv(c: Config, b: Book, p: Pass) {
    match p.pc
    case Keeping => Answering(c, b, p) && GateSays(p, false) && !p.locked
    case KeepWriting => Answering(c, b, p) && GateSays(p, false) && p.locked && p.cancelledBy.None?
    case Closing(end) => EndAt(c, b, p, end) && !p.locked
    case FailingStep => EndAt(c, b, p, Broke) && p.locked && p.cancelledBy.None?
    case Ending(end) =>
      && p.locked && p.cancelledBy.None?
      && (if end.Broke? then
            && Moving(b, p) && p.attempt.Some? && LetGo(p.attempt.value) && b.flight.Some?
            && InFlight(b, p.attempt.value.step.name, p.attempt.value.number)
            && b.flight.value.failed == Some(p.attempt.value.teardownError)
          else !end.OnlyIfCancelled? && EndAt(c, b, p, end))
    case CancellingStep =>
      && Moving(b, p) && p.locked && p.cancelledBy.Some? && Leaving(b, p) && p.attempt.Some? && p.attempt.value.teardownError
    case CancellingRun =>
      && Moving(b, p) && p.locked && p.cancelledBy.Some?
      && (p.attempt.Some? ==>
            var a := p.attempt.value;
            LetGo(a) && (a.teardownError ==> InFlight(b, a.step.name, a.number) && b.flight.value.failed == Some(true)))
    case _ => !p.accepting && !p.locked && (p.attempt.Some? ==> LetGo(p.attempt.value))
  }

  predicate BeforeSteps(pc: Pc) {
    pc.Reading? || pc.Writing? || pc.Opening? || pc.PickingUp? || pc.Preparing?
  }

  predicate AtBoundary(pc: Pc) {
    pc.AtStep? || pc.Approving? || pc.Resolving?
  }

  predicate AtEnd(pc: Pc) {
    pc.Keeping? || pc.KeepWriting? || pc.Closing? || pc.FailingStep? || pc.Ending? || pc.CancellingStep? || pc.CancellingRun? || pc.Done?
  }

  ghost predicate PassInv(c: Config, b: Book, p: Pass) {
    if BeforeSteps(p.pc) then CallInv(b, p)
    else if AtBoundary(p.pc) then StepInv(c, b, p)
    else if AtEnd(p.pc) then EndInv(c, b, p)
    else AttemptInv(c, b, p)
  }

  /** What is written is allowed. */
  ghost predicate WritesAllowed(c: Config, b: Book, asked: Option<string>, f: Effect) {
    f.event.Some? && Allowed(c, b, asked, f.event.value)
  }

  ghost predicate MoveAllowed(c: Config, b: Book, asked: Option<string>, moved: Option<Moved>) {
    moved.Some? && !IsIntent(moved.value.record) && Allowed(c, b, asked, moved.value.record)
  }

  predicate HasLetGo(p: Pass) {
    p.attempt.Some? ==> LetGo(p.attempt.value)
  }

  /** The teardown that a cancel claimed has returned. */
  predicate CancelReturned(p: Pass) {
    p.attempt.Some? ==> p.attempt.value.cancelTeardown.Returned?
  }

  /** At a step of the Op that was not completed when the pass began, or at one that was. */
  predicate AtOpenStep(p: Pass) {
    p.pc.AtStep? && p.i < |p.op.steps| && p.op.steps[p.i].name !in p.completed
  }

  predicate AtCompletedStep(p: Pass) {
    p.pc.AtStep? && p.i < |p.op.steps| && p.op.steps[p.i].name in p.completed
  }

  /** What one step of the holder keeps: its event was allowed, and it is where it may be after. */
  ghost predicate Keeps(c: Config, b: Book, asked: Option<string>, f: Effect) {
    && f.pass.Some?
    && match f.event
       case None => PassInv(c, b, f.pass.value)
       case Some(e) => !IsIntent(e) && Allowed(c, b, asked, e) && PassInv(c, Post(b, e), f.pass.value)
  }
}
