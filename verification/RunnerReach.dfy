/** The invariant of every behaviour of the runner: for every interleaving of its calls with cancels and
    clients, and a crash wherever one lands, the Track is legal, and the call that holds the run is where the
    Track says it may be. */
module RunnerReach {
  import opened Wrappers
  import opened Budget
  import opened RunMachine
  import opened Ledger
  import opened LedgerSound
  import opened TrackLaws
  import opened Readers
  import opened Runner
  import opened RunnerInv
  import opened RunnerProof
  import Keys

  // ---- The invariant ----------------------------------------------------------------------------

  /** Whether what the pass has read and written is, beside what clients wrote, the whole Track. */
  predicate Synced(p: Pass) {
    !p.pc.Reading? && !p.pc.Done? && !(p.pc.Writing? && p.call.Submit?)
  }

  ghost predicate HistoryInv(c: Config, b: Book, p: Pass) {
    && (Synced(p) ==> Legal(c, p.history) && Fold(p.history) == b)
    && (p.pc.Writing? && p.call.Submit? ==> p.history == [])
  }

  ghost predicate Inv(c: Config, s: State) {
    && Legal(c, s.track)
    && (s.claim.Some? ==>
          && PassInv(c, Fold(s.track), s.claim.value)
          && HistoryInv(c, Fold(s.track), s.claim.value)
          && s.claim.value.id < s.claims)
  }

  lemma NothingBeforeSubmission(c: Config, t: seq<Event>)
    requires Legal(c, t) && t != []
    ensures t[0].OpSubmitted?
  {
    hide ReplayOne;
    assert LegalAt(c, t, 0);
    assert Allowed(c, Fold(t[..0]), CancelRequestOf(t[..0]), t[0]);
    assert t[..0] == [];
    FirstIsSubmission(c, CancelRequestOf(t[..0]), t[0]);
  }

  lemma FirstIsSubmission(c: Config, asked: Option<string>, e: Event)
    requires Allowed(c, BLANK, asked, e)
    ensures e.OpSubmitted?
  {
  }

  lemma SubmittedStays(c: Config, b: Book, asked: Option<string>, e: Event)
    requires Sound(c, b) && Allowed(c, b, asked, e)
    ensures Post(b, e).replayed.At?
  {
    hide Tally, Affordable, Within, Keys.Key, Distinct, SoundGates, SoundFlight, Answered, KeptUnder;
  }

  lemma SubmittedMeans(c: Config, t: seq<Event>)
    requires Legal(c, t)
    ensures WasSubmitted(t) <==> !Fold(t).replayed.NeverSubmitted?
    ensures Fold(t).replayed.NeverSubmitted? <==> t == []
  {
    hide Legal, Post, Allowed, Sound;
    if t == [] {
      EmptyFold();
    } else {
      NothingBeforeSubmission(c, t);
      OneEvent(c, t, |t| - 1);
      SubmittedStays(c, Fold(t[..|t| - 1]), CancelRequestOf(t[..|t| - 1]), t[|t| - 1]);
      assert t[..|t|] == t;
    }
  }

  lemma NoAttemptIsDone(c: Config, b: Book, p: Pass)
    requires PassInv(c, b, p) && p.attempt.None?
    ensures BeforeSteps(p.pc) || AtBoundary(p.pc) || p.pc.Closing? || p.pc.Ending? || p.pc.CancellingRun? || p.pc.Done?
  {
  }

  lemma AttemptKeeps(c: Config, b: Book, asked: Option<string>, track: seq<Event>, p: Pass, a: Attempt, ch: Choice)
    requires Sound(c, b) && PassInv(c, b, p) && p.attempt == Some(a) && (p.pc.AwaitingCancel? ==> CancelReturned(p))
    requires !BeforeSteps(p.pc) && !AtBoundary(p.pc) && !p.pc.Closing? && !p.pc.Ending? && !p.pc.CancellingRun? && !p.pc.Done?
    ensures Keeps(c, b, asked, Drive(c, track, p, ch)) == true
  {
    hide Legal, Fold, Sound, Keeps, Walking, Between, Leaving, TeardownAt, LiveAt, UsageAt, Allowed, Post, PassInv;
    match p.pc
    case Checking => KeepsChecking(c, b, asked, p, a);
    case Materializing => KeepsMaterializing(c, b, asked, p, a, ch);
    case Recording => KeepsRecording(c, b, asked, p, a);
    case StartingWorker => KeepsStartingWorker(c, b, asked, p, a);
    case Readying => KeepsReadying(c, b, asked, p, a);
    case Invoking => KeepsInvoking(c, b, asked, p, a);
    case Interacting => KeepsInteracting(c, b, asked, p, a, ch);
    case Accounting(_) => KeepsAccounting(c, b, asked, p, a, p.pc.report);
    case Releasing => KeepsReleasing(c, b, asked, p, a);
    case AwaitingCancel => KeepsAwaitingCancel(c, b, asked, p, a);
    case Idling => KeepsIdling(c, b, asked, p, a);
    case TearingStart => KeepsTearingStart(c, b, asked, p, a);
    case TearingDown => KeepsTearingDown(c, b, asked, p, a, ch);
    case NotingFailure => KeepsNotingFailure(c, b, asked, p, a);
    case Stopping => KeepsStopping(c, b, asked, p, a);
    case Judging => KeepsJudging(c, b, asked, p, a, ch);
    case Keeping => KeepsKeeping(c, b, asked, p, a);
    case KeepWriting => KeepsKeepWriting(c, b, asked, p, a);
    case FailingStep => KeepsFailingStep(c, b, asked, p, a);
    case CancellingStep => KeepsCancellingStep(c, b, asked, p, a);
  }

  lemma CallKeeps(c: Config, b: Book, asked: Option<string>, track: seq<Event>, p: Pass, ch: Choice)
    requires Legal(c, track) && Fold(track) == b && Sound(c, b) && PassInv(c, b, p) && HistoryInv(c, b, p) && BeforeSteps(p.pc)
    ensures Keeps(c, b, asked, Drive(c, track, p, ch)) == true
  {
    hide Legal, Fold, Sound, Keeps, Allowed, Post, PassInv, OnReading, OnWriting, OnOpening, OnPreparing, OnWalk, OnEnd, OnTeardown,
         OnOutcome, OnWorker;
    match p.pc
    case Reading => KeepsReading(c, b, asked, p, track);
    case Writing =>
      SubmittedMeans(c, track);
      if p.call.Submit? { KeepsSubmitting(c, b, asked, p, track); }
      else if p.call.RetryRun? { KeepsRetrying(c, b, asked, p, track); }
      else if p.call.DecideRun? { KeepsDeciding(c, b, asked, p, track); }
      else { KeepsStoppingRun(c, b, asked, p, track); }
    case Opening => KeepsOpening(c, b, asked, p);
    case PickingUp => KeepsPickingUp(c, b, asked, p);
    case Preparing => KeepsPreparing(c, b, asked, p);
  }

  lemma WalkKeeps(c: Config, b: Book, asked: Option<string>, track: seq<Event>, p: Pass, ch: Choice)
    requires Sound(c, b) && PassInv(c, b, p) && Fold(p.history) == b && AtBoundary(p.pc)
    ensures Keeps(c, b, asked, Drive(c, track, p, ch)) == true
  {
    hide Fold, Sound, Keeps, Allowed, Post, PassInv, OnAtStep, OnApproving, OnResolving, OnCall, OnEnd, OnTeardown, OnOutcome, OnWorker;
    match p.pc
    case AtStep =>
      if p.i >= |p.op.steps| { KeepsAtEnd(c, b, asked, p, ch); }
      else if p.op.steps[p.i].name in p.completed { KeepsSkipping(c, b, asked, p, ch); }
      else { KeepsReaching(c, b, asked, p, ch); }
    case Approving => KeepsApproving(c, b, asked, p);
    case Resolving => KeepsResolving(c, b, asked, p);
  }

  lemma EndKeeps(c: Config, b: Book, asked: Option<string>, track: seq<Event>, p: Pass, ch: Choice)
    requires Sound(c, b) && PassInv(c, b, p) && (p.pc.Closing? || p.pc.Ending? || p.pc.CancellingRun?)
    ensures Keeps(c, b, asked, Drive(c, track, p, ch)) == true
  {
    hide Fold, Sound, Keeps, Allowed, Post, PassInv, OnClosing, OnEnding, OnCancellingRun, OnCall, OnWalk, OnTeardown, OnOutcome, OnWorker;
    match p.pc
    case Closing(end) => KeepsClosing(c, b, asked, p, end);
    case Ending(end) =>
      if end.Finished? { KeepsCompleting(c, b, asked, p); }
      else if end.AtGate? { KeepsEscalating(c, b, asked, p); }
      else { KeepsEndingOtherwise(c, b, asked, p, end); }
    case CancellingRun => KeepsCancellingRun(c, b, asked, p);
  }

  /** One step of the holder keeps the invariant of the ledger and of the pass. */
  lemma DriveKeeps(c: Config, track: seq<Event>, p: Pass, ch: Choice)
    requires Legal(c, track) && PassInv(c, Fold(track), p) && HistoryInv(c, Fold(track), p) && !p.pc.Done?
    requires p.pc.AwaitingCancel? ==> CancelReturned(p)
    ensures Keeps(c, Fold(track), CancelRequestOf(track), Drive(c, track, p, ch)) == true
  {
    hide Legal, Fold, Sound, Keeps, PassInv, Drive;
    var b, asked := Fold(track), CancelRequestOf(track);
    LegalSound(c, track, |track|);
    assert track[..|track|] == track;
    if BeforeSteps(p.pc) {
      CallKeeps(c, b, asked, track, p, ch);
    } else if AtBoundary(p.pc) {
      WalkKeeps(c, b, asked, track, p, ch);
    } else if p.pc.Closing? || p.pc.Ending? || p.pc.CancellingRun? {
      EndKeeps(c, b, asked, track, p, ch);
    } else {
      if p.attempt.None? {
        NoAttemptIsDone(c, b, p);
      }
      AttemptKeeps(c, b, asked, track, p, p.attempt.value, ch);
    }
  }

  /** What is written from each place. */
  predicate WritesAs(p: Pass, e: Event) {
    match e
    case OpSubmitted(_, _) => p.pc.Writing? && p.call.Submit?
    case RetryRequested(_, _) => p.pc.Writing? && p.call.RetryRun?
    case GateDecided(_, _, _, _, _) => p.pc.Writing? && p.call.DecideRun?
    case RunInterrupted => p.pc.Writing? && p.call.HostStart?
    case RunPickedUp => p.pc.PickingUp?
    case StepStarted(_, _) => p.pc.Resolving?
    case InteractionUsage(_, _, _) => p.pc.Accounting?
    case WorkerStarted(_, _, _, _) => p.pc.StartingWorker?
    case WorkerStopped(_, _, _) => p.pc.Stopping?
    case WorkerFact(_, _) => !BeforeSteps(p.pc) && !AtBoundary(p.pc) && !AtEnd(p.pc)
    case StepCompleted(_, _, _, _, _) => (p.pc.Approving? && p.cancelledBy.None?) || p.pc.KeepWriting?
    case StepFailed(_, _, _, _, _) => p.pc.FailingStep? || p.pc.CancellingStep?
    case GateEscalated(_, _, _) => p.pc == Ending(AtGate)
    case RunCompleted => p.pc == Ending(Finished)
    case RunFailed(_, _, _) => p.pc == Ending(Broke) || p.pc == Ending(Unaccountable) || (p.pc.Writing? && p.call.DecideRun?)
    case BudgetStopped(_, _) => p.pc.Ending? && p.pc.end.OverBudget?
    case RunCancelled(actor) =>
      (p.pc.CancellingRun? && p.cancelledBy.GetOr("") == actor) || (p.pc.Writing? && p.call.CancelRun?)
    case _ => false
  }

  /** A walk goes on over the same Op, past the same completed steps. It moves on from a step only when the step is
      completed, and reaches only a step that was not. */
  predicate WalksOn(p: Pass, q: Pass) {
    if BeforeSteps(p.pc) then p.pc.Preparing? || BeforeSteps(q.pc) || q.pc.Done?
    else
      && !BeforeSteps(q.pc) && q.op == p.op && q.completed == p.completed
      && (q.spentOn == p.spentOn || (AtOpenStep(p) && q.spentOn == Some(p.op.steps[p.i].name)))
      && (q.i == p.i || (q.i == p.i + 1 && (p.pc.Approving? || p.pc.KeepWriting? || (p.pc.AtStep? && !AtOpenStep(p)))))
  }

  /** A worker is up, and what it is started with is not recorded yet. */
  predicate BroughtUp(pc: Pc) {
    pc.Recording? || pc.StartingWorker?
  }

  /** The pass goes on as the same call, under the same cancel, and its history gains exactly what it writes. */
  predicate Tells(p: Pass, f: Effect) {
    && f.pass.Some? && f.pass.value.id == p.id && f.pass.value.call == p.call && f.pass.value.cancelledBy == p.cancelledBy
    && WalksOn(p, f.pass.value)
    && !f.pass.value.pc.Reading? && !f.pass.value.pc.Writing?
    && f.pass.value.history == (if f.event.Some? then p.history + [f.event.value] else p.history)
    && (f.event.Some? ==> WritesAs(p, f.event.value))
    && (f.put.Some? ==> p.pc.Keeping? || p.pc == Closing(AtGate))
    && (f.pass.value.pc.KeepWriting? ==> p.pc.Keeping?)
    && (BroughtUp(f.pass.value.pc) ==> p.pc.Materializing? || p.pc.Recording?)
    && (f.pass.value.pc == Ending(AtGate) ==> p.pc == Closing(AtGate))
  }

  lemma AskingTells(c: Config, track: seq<Event>, p: Pass, ch: Choice)
    requires p.pc.Checking? || p.pc.Materializing?
    ensures Tells(p, Drive(c, track, p, ch)) == true
  {
    hide OnCall, OnEnd, OnOutcome, OnTeardown, OnWalk, Fold;
  }

  /** An answer changes the attempt, and leaves it to be accounted for. */
  lemma InteractingGoes(c: Config, p: Pass, a: Attempt, ch: Choice) returns (after: Attempt, report: Option<Usage>)
    ensures OnInteracting(c, p, a, ch) == Goes(With(p, after, Accounting(report)))
  {
    hide ValidateUsage;
    after, report := a, None;
    match ch.reply {
      case Raised(error) => after := a.(outcome := Broken(error));
      case NotAnEnvelope => after := a.(outcome := Broken("EnvelopeInvalid"));
      case Returned(envelope, json, raw) =>
        after := OnInteracting(c, p, a, ch).pass.value.attempt.value;
        report := OnInteracting(c, p, a, ch).pass.value.pc.report;
    }
  }

  lemma InteractingTells(c: Config, track: seq<Event>, p: Pass, ch: Choice)
    requires p.pc.Interacting?
    ensures Tells(p, Drive(c, track, p, ch)) == true
  {
    hide OnCall, OnEnd, OnOutcome, OnTeardown, OnWalk, OnInteracting, Fold, WritesAs;
    if p.attempt.Some? {
      var after, report := InteractingGoes(c, p, p.attempt.value, ch);
    }
  }

  lemma BringingUpTells(c: Config, track: seq<Event>, p: Pass, ch: Choice)
    requires p.pc.Recording? || p.pc.StartingWorker? || p.pc.Readying?
    ensures Tells(p, Drive(c, track, p, ch)) == true
  {
    hide OnCall, OnEnd, OnOutcome, OnTeardown, OnWalk, OnInteracting, Fold, AtOpenStep;
  }

  lemma InvokingTells(c: Config, track: seq<Event>, p: Pass, ch: Choice)
    requires p.pc.Invoking? || p.pc.Accounting?
    ensures Tells(p, Drive(c, track, p, ch)) == true
  {
    hide OnCall, OnEnd, OnOutcome, OnTeardown, OnWalk, OnInteracting, Fold, AtOpenStep;
  }

  lemma LettingGoTells(c: Config, track: seq<Event>, p: Pass, ch: Choice)
    requires p.pc.Releasing? || p.pc.AwaitingCancel? || p.pc.TearingDown?
    ensures Tells(p, Drive(c, track, p, ch)) == true
  {
    hide OnCall, OnEnd, OnOutcome, OnWalk, OnWorker, Fold, OnIdling, OnTearingStart, OnNotingFailure, OnStopping, AtOpenStep;
  }

  lemma JudgingTells(c: Config, track: seq<Event>, p: Pass, ch: Choice)
    requires p.pc.Judging?
    ensures Tells(p, Drive(c, track, p, ch)) == true
  {
    hide OnCall, OnEnd, OnTeardown, OnWalk, OnWorker, Fold, Evaluate, Check, Succeeded;
  }

  lemma TearingTells(c: Config, track: seq<Event>, p: Pass, ch: Choice)
    requires p.pc.Idling? || p.pc.TearingStart? || p.pc.NotingFailure? || p.pc.Stopping?
    ensures Tells(p, Drive(c, track, p, ch)) == true
  {
    hide OnCall, OnEnd, OnOutcome, OnWalk, OnWorker, Fold;
  }

  lemma KeepingTells(c: Config, track: seq<Event>, p: Pass, ch: Choice)
    requires p.pc.Keeping?
    ensures Tells(p, Drive(c, track, p, ch)) == true
  {
    hide OnCall, OnEnd, OnTeardown, OnWalk, OnWorker, OnJudging, OnKeepWriting, OnFailingStep, OnCancellingStep, Fold,
         AtOpenStep, KeptAs, PutFor, WritesAs;
  }

  lemma KeepWritingTells(c: Config, track: seq<Event>, p: Pass, ch: Choice)
    requires p.pc.KeepWriting?
    ensures Tells(p, Drive(c, track, p, ch)) == true
  {
    hide OnCall, OnEnd, OnTeardown, OnWalk, OnWorker, OnJudging, OnKeeping, OnFailingStep, OnCancellingStep, Fold, AtOpenStep,
         KeptAs;
  }

  lemma EndingTells(c: Config, track: seq<Event>, p: Pass, ch: Choice)
    requires p.pc.Ending?
    ensures Tells(p, Drive(c, track, p, ch)) == true
  {
    hide OnCall, OnClosing, OnOutcome, OnTeardown, OnWalk, OnWorker, Fold, AtOpenStep;
  }

  lemma ClosingTells(c: Config, track: seq<Event>, p: Pass, ch: Choice)
    requires p.pc.Closing?
    ensures Tells(p, Drive(c, track, p, ch)) == true
  {
    hide OnCall, OnEnding, OnOutcome, OnTeardown, OnWalk, OnWorker, Fold, AtOpenStep, WritesAs, KeptAs;
  }

  lemma FailingTells(c: Config, track: seq<Event>, p: Pass, ch: Choice)
    requires p.pc.FailingStep? || p.pc.CancellingStep? || p.pc.CancellingRun?
    ensures Tells(p, Drive(c, track, p, ch)) == true
  {
    hide OnCall, OnTeardown, OnWalk, OnWorker, OnJudging, OnKeeping, OnKeepWriting, OnClosing, OnEnding, Fold, AtOpenStep, OwnError,
         Keys.Key;
  }

  lemma BoundaryTells(c: Config, track: seq<Event>, p: Pass, ch: Choice)
    requires p.pc.AtStep? || p.pc.Resolving?
    ensures Tells(p, Drive(c, track, p, ch)) == true
  {
    hide OnCall, OnEnd, OnOutcome, OnTeardown, OnWorker, OnApproving, Fold, Check, Lookup, Keys.Instance, Keys.Key;
  }

  lemma ApprovingTells(c: Config, track: seq<Event>, p: Pass, ch: Choice)
    requires p.pc.Approving?
    ensures Tells(p, Drive(c, track, p, ch)) == true
  {
    hide OnCall, OnEnd, OnOutcome, OnTeardown, OnWorker, OnAtStep, OnResolving, Fold, Check, Lookup, AtOpenStep;
  }

  lemma OpeningTells(c: Config, track: seq<Event>, p: Pass, ch: Choice)
    requires p.pc.Opening? || p.pc.PickingUp? || p.pc.Preparing?
    ensures Tells(p, Drive(c, track, p, ch)) == true
  {
    hide OnEnd, OnOutcome, OnTeardown, OnWalk, OnWorker, Fold, ReplayOf, Rebuilt;
  }

  lemma WritingTells(c: Config, track: seq<Event>, p: Pass, ch: Choice)
    requires p.pc.Writing?
    ensures Tells(p, Drive(c, track, p, ch)) == true
  {
    hide OnEnd, OnOutcome, OnTeardown, OnWalk, OnWorker, OnReading, OnOpening, OnPreparing, WasSubmitted, AtOpenStep, Keys.Key, Fold, ReplayOf, HoldsNothing;
  }

  lemma ReadingTells(c: Config, track: seq<Event>, p: Pass, ch: Choice)
    requires p.pc.Reading?
    ensures var f := Drive(c, track, p, ch);
            && f.pass.Some? && f.event.None? && f.put.None? && f.pass.value.id == p.id && f.pass.value.call == p.call
            && (f.pass.value.pc.Done? || f.pass.value.history == track)
            && (f.pass.value.pc.Writing? && p.call.Submit? ==> track == [])
            && (f.pass.value.pc.Writing? || f.pass.value.pc.Opening? || f.pass.value.pc.Done?)
  {
    hide Fold, ReplayOf, HoldsNothing;
  }

  lemma DriveTells(c: Config, track: seq<Event>, p: Pass, ch: Choice)
    requires !p.pc.Done? && !p.pc.Reading?
    ensures Tells(p, Drive(c, track, p, ch))
  {
    hide Drive, Tells;
    match p.pc
    case Writing => WritingTells(c, track, p, ch);
    case Opening => OpeningTells(c, track, p, ch);
    case PickingUp => OpeningTells(c, track, p, ch);
    case Preparing => OpeningTells(c, track, p, ch);
    case AtStep => BoundaryTells(c, track, p, ch);
    case Approving => ApprovingTells(c, track, p, ch);
    case Resolving => BoundaryTells(c, track, p, ch);
    case Checking => AskingTells(c, track, p, ch);
    case Materializing => AskingTells(c, track, p, ch);
    case Interacting => InteractingTells(c, track, p, ch);
    case Recording => BringingUpTells(c, track, p, ch);
    case StartingWorker => BringingUpTells(c, track, p, ch);
    case Readying => BringingUpTells(c, track, p, ch);
    case Invoking => InvokingTells(c, track, p, ch);
    case Accounting(_) => InvokingTells(c, track, p, ch);
    case Idling => TearingTells(c, track, p, ch);
    case TearingStart => TearingTells(c, track, p, ch);
    case NotingFailure => TearingTells(c, track, p, ch);
    case Stopping => TearingTells(c, track, p, ch);
    case Keeping => KeepingTells(c, track, p, ch);
    case KeepWriting => KeepWritingTells(c, track, p, ch);
    case Closing(_) => ClosingTells(c, track, p, ch);
    case FailingStep => FailingTells(c, track, p, ch);
    case Ending(_) => EndingTells(c, track, p, ch);
    case CancellingStep => FailingTells(c, track, p, ch);
    case CancellingRun => FailingTells(c, track, p, ch);
    case Judging => JudgingTells(c, track, p, ch);
    case _ => LettingGoTells(c, track, p, ch);
  }

  // ---- Every action keeps it --------------------------------------------------------------------

  lemma CoreAllowed(c: Config, b: Book, asked: Option<string>, asked': Option<string>, e: Event)
    requires Allowed(c, b, asked, e) && !IsIntent(e)
    ensures Allowed(c, b, asked', e)
  {
    hide ReplayOne, Affordable, Answered;
  }

  /** The holder's step: the Track and the pass's history gain the same event, and stay in step. */
  lemma AdvanceKeeps(c: Config, s: State, ch: Choice)
    requires Inv(c, s) && Enabled(c, s, Advance(ch))
    ensures Inv(c, Do(c, s, Advance(ch)))
  {
    hide Legal, Fold, Drive, PassInv, Allowed, Post;
    var p, b := s.claim.value, Fold(s.track);
    if p.pc.Done? {
      DoneReleases(c, s.track, p, ch);
    } else {
      DriveKeeps(c, s.track, p, ch);
      var f := Drive(c, s.track, p, ch);
      if p.pc.Reading? {
        ReadingTells(c, s.track, p, ch);
      } else {
        DriveTells(c, s.track, p, ch);
        if f.event.Some? {
          var e := f.event.value;
          LegalSnoc(c, s.track, e);
          FoldSnoc(s.track, e);
          if p.pc.Writing? && p.call.Submit? {
            SubmittingWrites(c, s, ch);
          } else {
            CoreAllowed(c, b, CancelRequestOf(s.track), CancelRequestOf(p.history), e);
            LegalSnoc(c, p.history, e);
            FoldSnoc(p.history, e);
          }
        } else if p.pc.Writing? && p.call.Submit? {
          SubmittingRefused(c, s.track, p, ch);
        }
      }
    }
  }

  lemma DoneReleases(c: Config, track: seq<Event>, p: Pass, ch: Choice)
    requires p.pc.Done?
    ensures Drive(c, track, p, ch) == Effect(None, None, None)
  {
  }

  lemma SubmittingRefused(c: Config, track: seq<Event>, p: Pass, ch: Choice)
    requires p.pc.Writing? && p.call.Submit? && Drive(c, track, p, ch).event.None?
    ensures Drive(c, track, p, ch).pass.Some? && Drive(c, track, p, ch).pass.value.pc.Done?
  {
    hide WasSubmitted;
  }

  lemma SubmittingWrites(c: Config, s: State, ch: Choice)
    requires Inv(c, s) && s.claim.Some? && s.claim.value.pc.Writing? && s.claim.value.call.Submit?
    requires Drive(c, s.track, s.claim.value, ch).event.Some?
    ensures s.track == [] && s.claim.value.history == []
  {
    hide Legal, Fold, PassInv;
    SubmittedMeans(c, s.track);
  }

  lemma MayWriteAllowed(c: Config, t: seq<Event>, e: Event)
    requires Legal(c, t) && MayWrite(t, e)
    ensures Allowed(c, Fold(t), CancelRequestOf(t), e) && Post(Fold(t), e) == Fold(t)
  {
    hide Legal, Fold, ReplayOf;
    ReplayNeverRefuses(c, t);
  }

  lemma SubmissionAllowed(c: Config, b: Book, asked: Option<string>, op: Op, at: nat)
    requires b == BLANK
    ensures Allowed(c, b, asked, OpSubmitted(op, at))
  {
  }

  lemma StandingWasSubmitted(c: Config, b: Book, p: Pass)
    requires PassInv(c, b, p) && b == BLANK
    ensures !Synced(p)
  {
    hide LetGo, TeardownAt, LiveAt, UsageAt, Walks;
  }

  lemma UnsyncedAnywhere(c: Config, b: Book, b': Book, p: Pass)
    requires PassInv(c, b, p) && !Synced(p)
    ensures PassInv(c, b', p) == true
  {
    hide LetGo, TeardownAt, LiveAt, UsageAt, Walks, StepInv, AttemptInv;
  }

  lemma ClientSubmitKeeps(c: Config, s: State, op: Op, at: nat)
    requires Inv(c, s) && !WasSubmitted(s.track)
    ensures Inv(c, s.(track := s.track + [OpSubmitted(op, at)]))
  {
    hide Legal, Fold, PassInv, Allowed, Post, WasSubmitted;
    SubmittedMeans(c, s.track);
    EmptyFold();
    SubmissionAllowed(c, Fold(s.track), CancelRequestOf(s.track), op, at);
    LegalSnoc(c, s.track, OpSubmitted(op, at));
    if s.claim.Some? {
      StandingWasSubmitted(c, Fold(s.track), s.claim.value);
      UnsyncedAnywhere(c, Fold(s.track), Fold(s.track + [OpSubmitted(op, at)]), s.claim.value);
    }
  }

  lemma ClientWriteKeeps(c: Config, s: State, e: Event)
    requires Inv(c, s) && MayWrite(s.track, e)
    ensures Inv(c, s.(track := s.track + [e]))
  {
    hide Legal, Fold, PassInv, Allowed, Post, MayWrite;
    MayWriteAllowed(c, s.track, e);
    LegalSnoc(c, s.track, e);
    FoldSnoc(s.track, e);
  }

  /** A cancel finds the worker unclaimed only where the teardown step has not claimed it. */
  lemma AcceptKeeps(c: Config, b: Book, p: Pass, who: string)
    requires PassInv(c, b, p) && p.accepting && !p.locked && who != ""
    ensures PassInv(c, b, Accepts(p, who)) == true
  {
    hide Walks, Tally, Distinct, Affordable;
  }

  lemma CancelReturnsKeeps(c: Config, b: Book, p: Pass, raised: bool)
    requires PassInv(c, b, p) && p.attempt.Some? && p.attempt.value.cancelTeardown.Asked?
    ensures PassInv(c, b, CancelReturns(p, raised)) == true
  {
    hide Walks, Tally, Distinct, Affordable;
  }

  lemma ClaimKeeps(c: Config, s: State, call: Call)
    requires Inv(c, s) && Enabled(c, s, Acquire(call))
    ensures Inv(c, Do(c, s, Acquire(call)))
  {
    hide Legal, Fold;
  }

  lemma StepKeeps(c: Config, s: State, a: Action)
    requires Inv(c, s) && Enabled(c, s, a)
    ensures Inv(c, Do(c, s, a))
  {
    hide Legal, Fold, PassInv, MayWrite, WasSubmitted, Drive;
    match a
    case Acquire(call) => ClaimKeeps(c, s, call);
    case Advance(ch) => AdvanceKeeps(c, s, ch);
    case AcceptCancel(who) => AcceptKeeps(c, Fold(s.track), s.claim.value, who);
    case CancelTeardownReturns(raised) => CancelReturnsKeeps(c, Fold(s.track), s.claim.value, raised);
    case Crash =>
    case ClientSubmits(op, at) => ClientSubmitKeeps(c, s, op, at);
    case ClientWrites(e) => ClientWriteKeeps(c, s, e);
    case OtherRunKeeps(_, _, _, _) =>
  }

  lemma {:induction false} BehaviourKeeps(c: Config, states: seq<State>, k: nat)
    requires Behaviour(c, states) && k < |states|
    ensures Inv(c, states[k])
  {
    hide Inv, Enabled;
    if k == 0 {
      StartKeeps(c);
    } else {
      BehaviourKeeps(c, states, k - 1);
      assert StepAt(c, states, k - 1);
      var a :| Enabled(c, states[k - 1], a) && states[k] == Do(c, states[k - 1], a);
      StepKeeps(c, states[k - 1], a);
    }
  }

  lemma StartKeeps(c: Config)
    ensures Inv(c, START)
  {
  }
}
