/** Every step of the protocol keeps its invariant: one lemma for each place the holder of the claim can be.
    `Keeps(..) == true` says no more than `Keeps(..)`; it is proved whole, not taken apart case by case. */
module RunnerProof {
  import opened Wrappers
  import opened Budget
  import opened RunMachine
  import opened Ledger
  import opened LedgerSound
  import opened TrackLaws
  import opened Readers
  import opened Runner
  import opened RunnerInv
  import Keys

  // ---- What a predicate of the pass does not look at --------------------------------------------

  lemma FlyingOn(b: Book, b': Book, p: Pass, q: Pass)
    requires Flying(b, p) && q == p.(attempt := q.attempt, pc := q.pc, history := q.history)
    requires q.attempt.Some? && q.attempt.value.step == p.attempt.value.step && q.attempt.value.number == p.attempt.value.number
    requires b'.flight.Some? && b' == b.(flight := b'.flight, reports := b'.reports, accounted := b'.accounted)
    requires b'.flight.value.step == b.flight.value.step && b'.flight.value.number == b.flight.value.number
    requires b'.flight.value.failed.None?
    ensures Flying(b', q)
  {
    hide Walks, Distinct;
  }

  lemma EndAtStill(c: Config, b: Book, p: Pass, q: Pass, end: End)
    requires EndAt(c, b, p, end) && q == p.(locked := q.locked, pc := q.pc)
    ensures EndAt(c, b, q, end)
  {
    hide Walks, Distinct, LetGo, Tally;
  }

  lemma EndAtMoving(c: Config, b: Book, p: Pass, end: End)
    requires EndAt(c, b, p, end)
    ensures Moving(b, p) && Leaving(b, p)
  {
    hide Walks, Distinct, LetGo, Tally;
  }

  /** What starting and completing a step do to the ledger. */
  lemma StepMoves(b: Book, e: Event)
    requires InState(b, Running)
    ensures e.StepStarted? ==> Post(b, e) == b.(flight := Some(Flight(e.step, e.attempt, None, None, None)))
    ensures e.StepCompleted? ==>
              Post(b, e) == b.(completed := b.completed + [e.step], approved := b.approved - {e.step}, flight := None)
  {
  }

  lemma BetweenRuns(c: Config, b: Book, p: Pass)
    requires Between(c, b, p) || Flying(b, p)
    ensures InState(b, Running)
  {
    hide Walks, Distinct, Tally;
  }

  /** A walk that completes the step it is on is past it. */
  lemma WalksPast(c: Config, b: Book, b': Book, p: Pass, q: Pass)
    requires Walking(b, p) && OnStep(b, p) && Settled(p) && Tracked(c, b, p.tracker)
    requires q == p.(i := p.i + 1, locked := q.locked, pc := q.pc, history := q.history)
    requires b' == b.(completed := b.completed + [p.op.steps[p.i].name], approved := b'.approved, flight := None)
    ensures Between(c, b', q)
  {
    hide Distinct, Tally, LetGo;
  }

  // ---- Claiming, reading, and the call's own record ---------------------------------------------

  lemma KeepsReading(c: Config, b: Book, asked: Option<string>, p: Pass, track: seq<Event>)
    requires Sound(c, b) && PassInv(c, b, p) && p.pc.Reading?
    requires Legal(c, track) && Fold(track) == b
    ensures Keeps(c, b, asked, OnReading(p, track)) == true
  {
    hide Legal, Fold, ReplayOf, Allowed, Post, Between, EndAt, Leaving, Walking, Flying, Answering, TeardownAt,
         LiveAt, UsageAt, LetGo, StepInv, AttemptInv;
    ReplayNeverRefuses(c, track);
  }

  lemma KeepsSubmitting(c: Config, b: Book, asked: Option<string>, p: Pass, track: seq<Event>)
    requires Sound(c, b) && PassInv(c, b, p) && p.pc.Writing? && p.call.Submit?
    requires WasSubmitted(track) <==> !b.replayed.NeverSubmitted?
    ensures Keeps(c, b, asked, OnWriting(c, p, track)) == true
  {
    hide WasSubmitted, Legal, Fold, Between, EndAt, Leaving, Walking, Flying, Answering, TeardownAt, LiveAt, UsageAt,
         LetGo, SoundGates, SoundFlight, StepInv, AttemptInv;
  }

  lemma KeepsRetrying(c: Config, b: Book, asked: Option<string>, p: Pass, track: seq<Event>)
    requires Sound(c, b) && PassInv(c, b, p) && p.pc.Writing? && p.call.RetryRun?
    ensures Keeps(c, b, asked, OnWriting(c, p, track)) == true
  {
    hide WasSubmitted, Legal, Fold, Between, EndAt, Leaving, Walking, Flying, Answering, TeardownAt, LiveAt, UsageAt,
         LetGo, SoundGates, StepInv, AttemptInv, Tally, Affordable, Answered, KeptUnder, Keys.Key, Distinct, EndInv;
  }

  function DecisionOf(c: Config, p: Pass): Option<Moved> {
    if p.call.DecideRun? then Decide(p.run, p.call.outcome, p.call.escalation, p.call.by_actor, p.call.findings, c.reviseLimit)
    else None
  }

  lemma DecidingAllowed(c: Config, b: Book, asked: Option<string>, p: Pass)
    requires Sound(c, b) && CallInv(b, p) && p.pc.Writing? && p.call.DecideRun? && DecisionOf(c, p).Some?
    ensures MoveAllowed(c, b, asked, DecisionOf(c, p))
  {
    hide Affordable, Answered, Distinct, SoundFlight;
  }

  lemma DecidingPost(c: Config, b: Book, p: Pass, moved: Moved)
    requires CallInv(b, p) && p.pc.Writing? && p.call.DecideRun? && DecisionOf(c, p) == Some(moved) && b.flight.None?
    ensures var b' := Post(b, moved.record); b'.replayed == At(moved.after) && b'.op == b.op && b'.flight.None?
  {
    hide Affordable, Answered, Distinct;
  }

  lemma WaitingIsDistinct(c: Config, b: Book)
    requires Sound(c, b) && InState(b, WaitingAtGate)
    ensures b.op.Some? && Distinct(b.op.value) && b.flight.None?
  {
  }

  lemma KeepsDeciding(c: Config, b: Book, asked: Option<string>, p: Pass, track: seq<Event>)
    requires Sound(c, b) && PassInv(c, b, p) && p.pc.Writing? && p.call.DecideRun?
    ensures Keeps(c, b, asked, OnWriting(c, p, track)) == true
  {
    hide WasSubmitted, Legal, Fold, Between, EndAt, Leaving, Walking, Flying, Answering, TeardownAt, LiveAt, UsageAt, LetGo,
         StepInv, AttemptInv, Sound, Post, Allowed, Distinct;
    if DecisionOf(c, p).Some? {
      WaitingIsDistinct(c, b);
      DecidingAllowed(c, b, asked, p);
      DecidingPost(c, b, p, DecisionOf(c, p).value);
    }
  }

  lemma KeepsStoppingRun(c: Config, b: Book, asked: Option<string>, p: Pass, track: seq<Event>)
    requires Sound(c, b) && PassInv(c, b, p) && p.pc.Writing? && (p.call.HostStart? || p.call.CancelRun?)
    ensures Keeps(c, b, asked, OnWriting(c, p, track)) == true
  {
    hide WasSubmitted, Legal, Fold, Between, EndAt, Leaving, Walking, Flying, Answering, TeardownAt, LiveAt, UsageAt,
         LetGo, SoundGates, SoundFlight, StepInv, AttemptInv;
  }

  lemma KeepsOpening(c: Config, b: Book, asked: Option<string>, p: Pass)
    requires Sound(c, b) && PassInv(c, b, p) && p.pc.Opening?
    requires Legal(c, p.history) && Fold(p.history) == b
    ensures Keeps(c, b, asked, OnOpening(p)) == true
  {
    hide Legal, Fold, ReplayOf, Allowed, Post, Between, EndAt, Leaving, Walking, Flying, Answering, TeardownAt,
         LiveAt, UsageAt, LetGo, StepInv, AttemptInv;
    ReplayNeverRefuses(c, p.history);
  }

  lemma KeepsPickingUp(c: Config, b: Book, asked: Option<string>, p: Pass)
    requires Sound(c, b) && PassInv(c, b, p) && p.pc.PickingUp?
    ensures Keeps(c, b, asked, Records(Pickup(p.run), p, Preparing)) == true
  {
    hide Between, EndAt, Leaving, Walking, Flying, Answering, TeardownAt, LiveAt, UsageAt, LetGo, StepInv, AttemptInv;
  }

  lemma KeepsPreparing(c: Config, b: Book, asked: Option<string>, p: Pass)
    requires Sound(c, b) && PassInv(c, b, p) && p.pc.Preparing?
    requires Legal(c, p.history) && Fold(p.history) == b
    ensures Keeps(c, b, asked, OnPreparing(c, p)) == true
  {
    hide Legal, Fold, Rebuilt, Allowed, Post, Leaving, Flying, Answering, TeardownAt, LiveAt, UsageAt, LetGo,
         AttemptInv;
    RebuiltIsTally(c, p.history);
    assert forall k :: 0 <= k < |b.completed| && k < |p.op.steps| ==> b.completed[k] == Names(p.op)[k];
  }

  lemma KeepsAtEnd(c: Config, b: Book, asked: Option<string>, p: Pass, ch: Choice)
    requires Sound(c, b) && PassInv(c, b, p) && p.pc.AtStep? && p.i >= |p.op.steps|
    requires Fold(p.history) == b
    ensures Keeps(c, b, asked, OnAtStep(c, p, ch)) == true
  {
    hide Fold, Allowed, Post, Tally, SoundGates, SoundFlight, Flying, Answering, TeardownAt, LiveAt, UsageAt, LetGo,
         CallInv, AttemptInv;
  }

  lemma KeepsSkipping(c: Config, b: Book, asked: Option<string>, p: Pass, ch: Choice)
    requires Sound(c, b) && PassInv(c, b, p) && AtCompletedStep(p)
    requires Fold(p.history) == b
    ensures Keeps(c, b, asked, OnAtStep(c, p, ch)) == true
  {
    hide Fold, Allowed, Post, Tally, SoundGates, SoundFlight, EndAt, Flying, Answering, TeardownAt, LiveAt, UsageAt,
         LetGo, CallInv, AttemptInv, EndInv;
    var name := p.op.steps[p.i].name;
    var k :| 0 <= k < |b.completed| && b.completed[k] == name;
    assert Names(p.op)[k] == p.op.steps[k].name;
    assert k == p.i;
  }

  lemma KeepsReaching(c: Config, b: Book, asked: Option<string>, p: Pass, ch: Choice)
    requires Sound(c, b) && PassInv(c, b, p) && AtOpenStep(p)
    requires Fold(p.history) == b
    ensures Keeps(c, b, asked, OnAtStep(c, p, ch)) == true
  {
    hide Fold, Allowed, Post, Tally, SoundGates, SoundFlight, Flying, Answering, TeardownAt, LiveAt, UsageAt,
         CallInv, AttemptInv;
    assert p.i == |b.completed|;
  }

  lemma KeepsApproving(c: Config, b: Book, asked: Option<string>, p: Pass)
    requires Sound(c, b) && PassInv(c, b, p) && p.pc.Approving?
    requires Fold(p.history) == b
    ensures Keeps(c, b, asked, OnApproving(p)) == true
  {
    hide Fold, Tally, Flying, Answering, TeardownAt, LiveAt, UsageAt, CallInv, AttemptInv, Post;
    NextNotCompleted(b, p.op.steps[p.i].name);
    BetweenRuns(c, b, p);
    if p.cancelledBy.Some? {
      hide Allowed;
      EntersCancelKeeps(c, b, asked, p);
    } else {
      var f := OnApproving(p);
      assert Allowed(c, b, asked, f.event.value);
      hide Allowed, Sound;
      StepMoves(b, f.event.value);
      WalksPast(c, b, Post(b, f.event.value), p, f.pass.value);
    }
  }

  lemma KeepsResolvingAllowed(c: Config, b: Book, asked: Option<string>, p: Pass)
    requires Sound(c, b) && PassInv(c, b, p) && p.pc.Resolving?
    ensures WritesAllowed(c, b, asked, OnResolving(p))
  {
    hide Fold, EndAt, Leaving, Answering, CallInv, EndInv, Walks, Distinct, Post, AttemptInv;
  }

  lemma KeepsResolving(c: Config, b: Book, asked: Option<string>, p: Pass)
    requires Sound(c, b) && PassInv(c, b, p) && p.pc.Resolving?
    ensures Keeps(c, b, asked, OnResolving(p)) == true
  {
    hide Fold, Tally, EndAt, Leaving, Answering, CallInv, EndInv, Walks, Distinct, Post, Allowed, Sound;
    var f := OnResolving(p);
    KeepsResolvingAllowed(c, b, asked, p);
    StepMoves(b, f.event.value);
    assert Flying(Post(b, f.event.value), f.pass.value);
    hide Flying;
  }

  // ---- The attempt ------------------------------------------------------------------------------

  lemma KeepsChecking(c: Config, b: Book, asked: Option<string>, p: Pass, a: Attempt)
    requires Sound(c, b) && PassInv(c, b, p) && p.pc.Checking? && p.attempt == Some(a)
    ensures Keeps(c, b, asked, OnChecking(p, a)) == true
  {
    hide Post, Allowed, Between, EndAt, Leaving, Answering, Tally, SoundGates, SoundRun, SoundFlight, CallInv,
         EndInv, StepInv, Walks, Distinct;
  }

  lemma KeepsMaterializing(c: Config, b: Book, asked: Option<string>, p: Pass, a: Attempt, ch: Choice)
    requires Sound(c, b) && PassInv(c, b, p) && p.pc.Materializing? && p.attempt == Some(a)
    ensures Keeps(c, b, asked, OnMaterializing(p, a, ch)) == true
  {
    hide Post, Allowed, Between, EndAt, Leaving, Answering, Tally, SoundGates, SoundRun, SoundFlight, CallInv,
         EndInv, StepInv, Walks, Distinct;
  }

  /** What the events of an attempt in flight do to the ledger: nothing beyond the flight itself. */
  lemma WorkerMoves(c: Config, b: Book, asked: Option<string>, e: Event)
    requires b.flight.Some? && InState(b, Running)
    ensures e.WorkerStarted? ==> Post(b, e) == b.(flight := Some(b.flight.value.(live := Some(Live(e.instance, e.token)))))
    ensures e.WorkerStopped? ==> Post(b, e) == b.(flight := Some(b.flight.value.(live := None)))
    ensures e.StepFailed? ==> Post(b, e) == b.(flight := Some(b.flight.value.(failed := Some(e.leaked))))
    ensures e.InteractionUsage? ==>
              Post(b, e) == b.(flight := Some(b.flight.value.(usage := Some(e.usage))),
                               reports := b.reports + [e.usage], accounted := b.accounted + {e.step})
  {
  }

  /** A worker fact leaves the ledger as it was. */
  lemma FactAllowed(c: Config, b: Book, asked: Option<string>, worker: string, fact: Fact)
    requires Sound(c, b) && b.flight.Some?
    ensures Allowed(c, b, asked, WorkerFact(worker, fact)) && Post(b, WorkerFact(worker, fact)) == b
  {
  }

  lemma KeepsRecording(c: Config, b: Book, asked: Option<string>, p: Pass, a: Attempt)
    requires Sound(c, b) && PassInv(c, b, p) && p.pc.Recording? && p.attempt == Some(a)
    ensures Keeps(c, b, asked, OnRecording(p, a)) == true
  {
    hide Post, Allowed, Between, EndAt, Leaving, Answering, Tally, SoundGates, SoundRun, SoundFlight, CallInv,
         EndInv, StepInv, Walks, Distinct, LetGo, Tracked, Accountable, Shape;
    FactAllowed(c, b, asked, p.attempt.value.step.name, Materialized);
  }

  lemma KeepsReadying(c: Config, b: Book, asked: Option<string>, p: Pass, a: Attempt)
    requires Sound(c, b) && PassInv(c, b, p) && p.pc.Readying? && p.attempt == Some(a)
    ensures Keeps(c, b, asked, OnReadying(p, a)) == true
  {
    hide Post, Allowed, Between, EndAt, Leaving, Answering, Tally, SoundGates, SoundRun, SoundFlight, CallInv,
         EndInv, StepInv, Walks, Distinct, LetGo, Tracked, Accountable, Shape;
    FactAllowed(c, b, asked, p.attempt.value.step.name, Ready);
  }

  lemma KeepsInvoking(c: Config, b: Book, asked: Option<string>, p: Pass, a: Attempt)
    requires Sound(c, b) && PassInv(c, b, p) && p.pc.Invoking? && p.attempt == Some(a)
    ensures Keeps(c, b, asked, OnInvoking(p, a)) == true
  {
    hide Post, Allowed, Between, EndAt, Leaving, Answering, Tally, SoundGates, SoundRun, SoundFlight, CallInv,
         EndInv, StepInv, Walks, Distinct;
    FlyingOn(b, b, p, OnInvoking(p, p.attempt.value).pass.value);
    hide Flying;
    if p.cancelledBy.None? {
      FactAllowed(c, b, asked, p.attempt.value.step.name, InteractionStarted);
    }
  }

  lemma KeepsIdling(c: Config, b: Book, asked: Option<string>, p: Pass, a: Attempt)
    requires Sound(c, b) && PassInv(c, b, p) && p.pc.Idling? && p.attempt == Some(a)
    ensures Keeps(c, b, asked, OnIdling(p, a)) == true
  {
    hide Post, Allowed, Between, EndAt, Leaving, Answering, Tally, SoundGates, SoundRun, SoundFlight, CallInv,
         EndInv, StepInv, Walks, Distinct, LetGo, Tracked, Accountable, Shape;
    FactAllowed(c, b, asked, p.attempt.value.step.name, Idle);
  }

  lemma KeepsTearingStart(c: Config, b: Book, asked: Option<string>, p: Pass, a: Attempt)
    requires Sound(c, b) && PassInv(c, b, p) && p.pc.TearingStart? && p.attempt == Some(a)
    ensures Keeps(c, b, asked, OnTearingStart(p, a)) == true
  {
    hide Post, Allowed, Between, EndAt, Leaving, Answering, Tally, SoundGates, SoundRun, SoundFlight, CallInv,
         EndInv, StepInv, Walks, Distinct, LetGo, Tracked, Accountable, Shape;
    FactAllowed(c, b, asked, p.attempt.value.step.name, TeardownStarted);
  }

  lemma KeepsNotingFailure(c: Config, b: Book, asked: Option<string>, p: Pass, a: Attempt)
    requires Sound(c, b) && PassInv(c, b, p) && p.pc.NotingFailure? && p.attempt == Some(a)
    ensures Keeps(c, b, asked, OnNotingFailure(p, a)) == true
  {
    hide Post, Allowed, Between, EndAt, Leaving, Answering, Tally, SoundGates, SoundRun, SoundFlight, CallInv,
         EndInv, StepInv, Walks, Distinct;
    FactAllowed(c, b, asked, p.attempt.value.step.name, TeardownFailed);
  }

  lemma KeepsStartingWorkerAllowed(c: Config, b: Book, asked: Option<string>, p: Pass, a: Attempt)
    requires Sound(c, b) && PassInv(c, b, p) && p.pc.StartingWorker? && p.attempt == Some(a)
    ensures WritesAllowed(c, b, asked, OnStartingWorker(p, a))
  {
    hide Between, EndAt, Leaving, Answering, Tally, SoundGates, CallInv, EndInv, StepInv, Walks, Distinct, Post,
         TeardownAt, LetGo;
  }

  lemma KeepsStartingWorker(c: Config, b: Book, asked: Option<string>, p: Pass, a: Attempt)
    requires Sound(c, b) && PassInv(c, b, p) && p.pc.StartingWorker? && p.attempt == Some(a)
    ensures Keeps(c, b, asked, OnStartingWorker(p, a)) == true
  {
    hide Between, EndAt, Leaving, Answering, Tally, SoundGates, CallInv, EndInv, StepInv, Walks, Distinct, Post,
         Allowed, Sound;
    var f := OnStartingWorker(p, p.attempt.value);
    KeepsStartingWorkerAllowed(c, b, asked, p, a);
    WorkerMoves(c, b, asked, f.event.value);
    FlyingOn(b, Post(b, f.event.value), p, f.pass.value);
    hide Flying;
  }

  lemma ReplyKeeps(c: Config, b: Book, p: Pass, answered: bool, usage: Option<Usage>, outcome: Outcome, report: Option<Usage>)
    requires AttemptInv(c, b, p) && p.pc.Interacting?
    requires outcome.Answer? ==> report == usage && Accountable(c.budget, usage)
    ensures AttemptInv(c, b, With(p, p.attempt.value.(answered := answered, usage := usage, outcome := outcome), Accounting(report))) == true
  {
    hide Post, Allowed, Between, Answering, Tally, Sound, Walks, Distinct;
  }

  lemma KeepsInteracting(c: Config, b: Book, asked: Option<string>, p: Pass, a: Attempt, ch: Choice)
    requires Sound(c, b) && PassInv(c, b, p) && p.pc.Interacting? && p.attempt == Some(a)
    ensures Keeps(c, b, asked, OnInteracting(c, p, a, ch)) == true
  {
    hide Post, Allowed, Sound, CallInv, EndInv, StepInv, AttemptInv;
    var a := p.attempt.value;
    match ch.reply
    case Raised(error) => ReplyKeeps(c, b, p, a.answered, a.usage, Broken(error), None);
    case NotAnEnvelope => ReplyKeeps(c, b, p, a.answered, a.usage, Broken("EnvelopeInvalid"), None);
    case Returned(envelope, json, raw) =>
      var answered := !(envelope.ok && !json);
      match ValidateUsage(raw, c.budget)
      case Err(_) => ReplyKeeps(c, b, p, answered, a.usage, Broken("UsageUnavailable"), None);
      case Ok(usage) =>
        ReplyKeeps(c, b, p, answered, usage, if answered then Answer(envelope) else Broken("EnvelopeInvalid"), usage);
  }


  lemma KeepsAccountingAllowed(c: Config, b: Book, asked: Option<string>, p: Pass, a: Attempt, report: Option<Usage>)
    requires Sound(c, b) && PassInv(c, b, p) && p.pc == Accounting(report) && p.attempt == Some(a)
    ensures WritesAllowed(c, b, asked, OnAccounting(p, a, report))
  {
    hide Between, EndAt, Leaving, Answering, Tally, SoundGates, CallInv, EndInv, StepInv, Walks, Distinct, Post,
         TeardownAt, LetGo, LiveAt;
  }

  lemma KeepsAccounting(c: Config, b: Book, asked: Option<string>, p: Pass, a: Attempt, report: Option<Usage>)
    requires Sound(c, b) && PassInv(c, b, p) && p.pc == Accounting(report) && p.attempt == Some(a)
    ensures Keeps(c, b, asked, OnAccounting(p, a, report)) == true
  {
    hide Between, EndAt, Leaving, Answering, Tally, SoundGates, CallInv, EndInv, StepInv, Walks, Distinct, Post,
         LetGo, ReplayOne, Keys.Instance, Keys.Key;
    TallySnoc(c.budget, b.reports, report);
    var f := OnAccounting(p, p.attempt.value, report);
    KeepsAccountingAllowed(c, b, asked, p, a, report);
    WorkerMoves(c, b, asked, f.event.value);
    FlyingOn(b, Post(b, f.event.value), p, f.pass.value);
    hide Flying;
  }

  lemma KeepsReleasing(c: Config, b: Book, asked: Option<string>, p: Pass, a: Attempt)
    requires Sound(c, b) && PassInv(c, b, p) && p.pc.Releasing? && p.attempt == Some(a)
    ensures Keeps(c, b, asked, OnReleasing(p, a)) == true
  {
    hide Post, Allowed, Between, EndAt, Leaving, Answering, Tally, SoundGates, SoundRun, SoundFlight, CallInv,
         EndInv, StepInv, Walks, Distinct;
  }

  lemma KeepsAwaitingCancel(c: Config, b: Book, asked: Option<string>, p: Pass, a: Attempt)
    requires Sound(c, b) && PassInv(c, b, p) && p.pc.AwaitingCancel? && p.attempt == Some(a) && a.cancelTeardown.Returned?
    ensures Keeps(c, b, asked, OnAwaitingCancel(p, a)) == true
  {
    hide Between, EndAt, Leaving, Answering, Tally, SoundGates, CallInv, EndInv, StepInv, Walks, Distinct, Post,
         Allowed, SoundRun, SoundFlight;
    FlyingOn(b, b, p, OnAwaitingCancel(p, p.attempt.value).pass.value);
    hide Flying;
  }

  lemma KeepsTearingDown(c: Config, b: Book, asked: Option<string>, p: Pass, a: Attempt, ch: Choice)
    requires Sound(c, b) && PassInv(c, b, p) && p.pc.TearingDown? && p.attempt == Some(a)
    ensures Keeps(c, b, asked, OnTearingDown(p, a, ch)) == true
  {
    hide Post, Allowed, Between, EndAt, Leaving, Answering, Tally, SoundGates, SoundRun, SoundFlight, CallInv,
         EndInv, StepInv, Walks, Distinct;
    FlyingOn(b, b, p, OnTearingDown(p, p.attempt.value, ch).pass.value);
    hide Flying;
  }

  lemma KeepsStoppingAllowed(c: Config, b: Book, asked: Option<string>, p: Pass, a: Attempt)
    requires Sound(c, b) && PassInv(c, b, p) && p.pc.Stopping? && p.attempt == Some(a)
    ensures WritesAllowed(c, b, asked, OnStopping(p, a))
  {
    hide Between, EndAt, Leaving, Answering, Tally, SoundGates, CallInv, EndInv, StepInv, Walks, Distinct, Post,
         UsageAt, Shape;
  }

  lemma KeepsStopping(c: Config, b: Book, asked: Option<string>, p: Pass, a: Attempt)
    requires Sound(c, b) && PassInv(c, b, p) && p.pc.Stopping? && p.attempt == Some(a)
    ensures Keeps(c, b, asked, OnStopping(p, a)) == true
  {
    hide Between, EndAt, Leaving, Answering, Tally, SoundGates, CallInv, EndInv, StepInv, Walks, Distinct, Post,
         Allowed, Sound;
    var f := OnStopping(p, p.attempt.value);
    KeepsStoppingAllowed(c, b, asked, p, a);
    WorkerMoves(c, b, asked, f.event.value);
    FlyingOn(b, Post(b, f.event.value), p, f.pass.value);
    hide Flying;
  }

  // ---- What becomes of the attempt --------------------------------------------------------------

  lemma KeepsJudging(c: Config, b: Book, asked: Option<string>, p: Pass, a: Attempt, ch: Choice)
    requires Sound(c, b) && PassInv(c, b, p) && p.pc.Judging? && p.attempt == Some(a)
    ensures Keeps(c, b, asked, OnJudging(c, p, a, ch)) == true
  {
    hide Post, Allowed, Tally, SoundGates, SoundFlight, SoundRun, Between, LiveIs, Shape, CallInv, StepInv, Walks,
         Distinct;
  }

  lemma EntersCancelKeeps(c: Config, b: Book, asked: Option<string>, p: Pass)
    requires Moving(b, p) && p.cancelledBy.Some? && Leaving(b, p)
    ensures Keeps(c, b, asked, EntersCancel(p)) == true
  {
    hide Post, Allowed, Between, EndAt, Answering, Flying, UsageAt, LiveAt, TeardownAt, Walking, CallInv, StepInv,
         AttemptInv;
  }

  lemma KeepsKeeping(c: Config, b: Book, asked: Option<string>, p: Pass, a: Attempt)
    requires Sound(c, b) && PassInv(c, b, p) && p.pc.Keeping? && p.attempt == Some(a)
    ensures Keeps(c, b, asked, OnKeeping(c, p, a)) == true
  {
    hide Post, Allowed, Tally, SoundGates, SoundFlight, SoundRun, Between, EndAt, UsageAt, LiveAt, TeardownAt,
         CallInv, StepInv, AttemptInv, Walks, Distinct;
  }

  lemma KeepsKeepWritingAllowed(c: Config, b: Book, asked: Option<string>, p: Pass, a: Attempt)
    requires Sound(c, b) && PassInv(c, b, p) && p.pc.KeepWriting? && p.attempt == Some(a)
    ensures WritesAllowed(c, b, asked, OnKeepWriting(c, p, a))
  {
    hide Tally, Leaving, UsageAt, LiveAt, TeardownAt, SoundGates, CallInv, AttemptInv, Post, Walks, LetGo, Distinct;
  }

  lemma KeepsKeepWriting(c: Config, b: Book, asked: Option<string>, p: Pass, a: Attempt)
    requires Sound(c, b) && PassInv(c, b, p) && p.pc.KeepWriting? && p.attempt == Some(a)
    ensures Keeps(c, b, asked, OnKeepWriting(c, p, a)) == true
  {
    hide Tally, Leaving, UsageAt, LiveAt, TeardownAt, SoundGates, CallInv, AttemptInv, Post, Allowed, Sound;
    var f := OnKeepWriting(c, p, p.attempt.value);
    KeepsKeepWritingAllowed(c, b, asked, p, a);
    StepMoves(b, f.event.value);
    WalksPast(c, b, Post(b, f.event.value), p, f.pass.value);
  }

  // ---- The run's end ----------------------------------------------------------------------------

  lemma ClosingKeeps(c: Config, b: Book, asked: Option<string>, p: Pass, end: End)
    requires PassInv(c, b, p) && p.pc == Closing(end) && p.cancelledBy.None?
    ensures Keeps(c, b, asked, OnClosing(c, p, end)) == true
  {
    hide Post, Allowed, Tally, EndAt, LetGo, CallInv, StepInv, AttemptInv, Walks, Distinct;
    var q := OnClosing(c, p, end).pass.value;
    EndAtHas(c, b, p, end);
    EndAtStill(c, b, p, q, end);
  }

  lemma EndAtHas(c: Config, b: Book, p: Pass, end: End)
    requires EndAt(c, b, p, end)
    ensures end.OnlyIfCancelled? ==> p.cancelledBy.Some?
    ensures end.AtGate? ==> p.attempt.Some? && p.attempt.value.outcome.Answer?
  {
    hide Walks, Distinct, LetGo, Tally;
  }

  lemma KeepsClosing(c: Config, b: Book, asked: Option<string>, p: Pass, end: End)
    requires Sound(c, b) && PassInv(c, b, p) && p.pc == Closing(end)
    ensures Keeps(c, b, asked, OnClosing(c, p, end)) == true
  {
    hide Post, Allowed, Tally, UsageAt, LiveAt, TeardownAt, Sound, EndAt, LetGo, CallInv, StepInv, AttemptInv, Walks,
         Distinct;
    EndAtMoving(c, b, p, end);
    if p.cancelledBy.Some? {
      EntersCancelKeeps(c, b, asked, p);
    } else {
      ClosingKeeps(c, b, asked, p, end);
    }
  }

  lemma KeepsFailingStepAllowed(c: Config, b: Book, asked: Option<string>, p: Pass, a: Attempt)
    requires Sound(c, b) && PassInv(c, b, p) && p.pc.FailingStep? && p.attempt == Some(a)
    ensures WritesAllowed(c, b, asked, OnFailingStep(c, p, a))
  {
    hide Tally, Between, Answering, UsageAt, LiveAt, TeardownAt, SoundGates, Shape, CallInv, StepInv, AttemptInv,
         Walks, Distinct, Post, LetGo;
  }

  lemma KeepsFailingStep(c: Config, b: Book, asked: Option<string>, p: Pass, a: Attempt)
    requires Sound(c, b) && PassInv(c, b, p) && p.pc.FailingStep? && p.attempt == Some(a)
    ensures Keeps(c, b, asked, OnFailingStep(c, p, a)) == true
  {
    hide Tally, Between, Answering, UsageAt, LiveAt, TeardownAt, SoundGates, Shape, CallInv, StepInv, AttemptInv,
         Walks, Distinct, Post, Allowed, Sound;
    var f := OnFailingStep(c, p, p.attempt.value);
    KeepsFailingStepAllowed(c, b, asked, p, a);
    WorkerMoves(c, b, asked, f.event.value);
  }

  lemma CancellingStepAllowed(c: Config, b: Book, asked: Option<string>, p: Pass, a: Attempt)
    requires Sound(c, b) && PassInv(c, b, p) && p.pc.CancellingStep? && p.attempt == Some(a)
    ensures OnCancellingStep(c, p, a).event.Some?
    ensures Allowed(c, b, asked, OnCancellingStep(c, p, a).event.value)
  {
    hide Tally, SoundGates, SoundFlight, SoundRun, LetGo, CallInv, StepInv, AttemptInv, Walks, Distinct, Post;
  }

  lemma KeepsCancellingStep(c: Config, b: Book, asked: Option<string>, p: Pass, a: Attempt)
    requires Sound(c, b) && PassInv(c, b, p) && p.pc.CancellingStep? && p.attempt == Some(a)
    ensures Keeps(c, b, asked, OnCancellingStep(c, p, a)) == true
  {
    hide Tally, Between, EndAt, Flying, Walking, Answering, UsageAt, LiveAt, TeardownAt, Sound, LetGo, CallInv,
         StepInv, AttemptInv, Walks, Distinct, Allowed, Post;
    var f := OnCancellingStep(c, p, p.attempt.value);
    CancellingStepAllowed(c, b, asked, p, a);
    WorkerMoves(c, b, asked, f.event.value);
  }

  /** A move the machine takes, written as the run's end, leaves the pass with nothing more to keep. */
  lemma EndsWith(c: Config, b: Book, asked: Option<string>, p: Pass, moved: Option<Moved>)
    requires MoveAllowed(c, b, asked, moved) && !p.accepting && !p.locked && HasLetGo(p)
    ensures Keeps(c, b, asked, Records(moved, p, Done)) == true
  {
    hide Allowed, Post, CallInv, StepInv, AttemptInv;
  }

  lemma EndingLetsGo(c: Config, b: Book, p: Pass)
    requires PassInv(c, b, p) && p.pc.Ending?
    ensures HasLetGo(p)
  {
    hide LetGo, EndAt, Walks, Distinct, Tally, CallInv, StepInv, AttemptInv;
    if !p.pc.end.Broke? {
      EndAtMoving(c, b, p, p.pc.end);
    }
  }

  lemma FinishedAllowed(c: Config, b: Book, asked: Option<string>, p: Pass)
    requires Sound(c, b) && PassInv(c, b, p) && p.pc == Ending(Finished)
    ensures MoveAllowed(c, b, asked, EndMove(c, p, Finished))
  {
    hide Tally, LetGo, SoundGates, SoundFlight, Flying, Answering, CallInv, StepInv, AttemptInv, Distinct, Post;
  }

  lemma AtGateAllowed(c: Config, b: Book, asked: Option<string>, p: Pass)
    requires Sound(c, b) && PassInv(c, b, p) && p.pc == Ending(AtGate)
    ensures MoveAllowed(c, b, asked, EndMove(c, p, AtGate))
  {
    hide Tally, LetGo, SoundGates, SoundFlight, Between, CallInv, StepInv, AttemptInv, Walks, Distinct, Post, Keys.Key,
         Affordable, Within, Evaluate;
  }

  lemma KeepsCompleting(c: Config, b: Book, asked: Option<string>, p: Pass)
    requires Sound(c, b) && PassInv(c, b, p) && p.pc == Ending(Finished)
    ensures Keeps(c, b, asked, OnEnding(c, p, Finished)) == true
  {
    hide Tally, Sound, EndAt, Allowed, Post, Keeps, CallInv, StepInv, AttemptInv, EndMove;
    FinishedAllowed(c, b, asked, p);
    EndingLetsGo(c, b, p);
    EndsWith(c, b, asked, p.(accepting := false, locked := false), EndMove(c, p, p.pc.end));
  }

  lemma KeepsEscalating(c: Config, b: Book, asked: Option<string>, p: Pass)
    requires Sound(c, b) && PassInv(c, b, p) && p.pc == Ending(AtGate)
    ensures Keeps(c, b, asked, OnEnding(c, p, AtGate)) == true
  {
    hide Tally, Sound, EndAt, Allowed, Post, Keeps, CallInv, StepInv, AttemptInv, EndMove;
    AtGateAllowed(c, b, asked, p);
    EndingLetsGo(c, b, p);
    EndsWith(c, b, asked, p.(accepting := false, locked := false), EndMove(c, p, p.pc.end));
  }

  lemma BrokeAllowed(c: Config, b: Book, asked: Option<string>, p: Pass)
    requires Sound(c, b) && PassInv(c, b, p) && p.pc == Ending(Broke)
    ensures MoveAllowed(c, b, asked, EndMove(c, p, Broke))
  {
    hide Tally, LetGo, SoundGates, SoundFlight, EndAt, CallInv, StepInv, AttemptInv, Walks, Distinct, Post;
  }

  lemma UnaccountableAllowed(c: Config, b: Book, asked: Option<string>, p: Pass)
    requires Sound(c, b) && PassInv(c, b, p) && p.pc == Ending(Unaccountable)
    ensures MoveAllowed(c, b, asked, EndMove(c, p, Unaccountable))
  {
    hide Tally, LetGo, SoundGates, SoundFlight, Between, Answering, Flying, CallInv, StepInv, AttemptInv, Walks,
         Distinct, Post;
  }

  lemma OverBudgetAllowed(c: Config, b: Book, asked: Option<string>, p: Pass, end: End)
    requires Sound(c, b) && PassInv(c, b, p) && p.pc == Ending(end) && end.OverBudget?
    ensures MoveAllowed(c, b, asked, EndMove(c, p, end))
  {
    hide Tally, LetGo, SoundGates, SoundFlight, Between, Answering, Flying, CallInv, StepInv, AttemptInv, Walks,
         Distinct, Post;
  }

  lemma KeepsEndingOtherwise(c: Config, b: Book, asked: Option<string>, p: Pass, end: End)
    requires Sound(c, b) && PassInv(c, b, p) && p.pc == Ending(end) && !end.Finished? && !end.AtGate?
    ensures Keeps(c, b, asked, OnEnding(c, p, end)) == true
  {
    hide Tally, Sound, EndAt, Allowed, Post, Keeps, CallInv, StepInv, AttemptInv, EndMove;
    match end {
      case Broke => BrokeAllowed(c, b, asked, p);
      case Unaccountable => UnaccountableAllowed(c, b, asked, p);
      case OverBudget(_, _) => OverBudgetAllowed(c, b, asked, p, end);
      case _ =>
    }
    EndingLetsGo(c, b, p);
    EndsWith(c, b, asked, p.(accepting := false, locked := false), EndMove(c, p, end));
  }

  lemma KeepsCancellingRun(c: Config, b: Book, asked: Option<string>, p: Pass)
    requires Sound(c, b) && PassInv(c, b, p) && p.pc.CancellingRun?
    ensures Keeps(c, b, asked, OnCancellingRun(p)) == true
  {
    hide Between, EndAt, Answering, Flying, UsageAt, LiveAt, TeardownAt, Walking, SoundGates, SoundFlight, LetGo,
         CallInv, StepInv, AttemptInv, Walks;
  }

}
