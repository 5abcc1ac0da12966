/** The runner's promises, said of any behaviour: any interleaving of calls, cancels, clients and crashes, seen
    state by state. */
module RunnerTheorems {
  import opened Wrappers
  import opened Budget
  import opened RunMachine
  import opened Ledger
  import opened TrackLaws
  import opened Readers
  import opened Runner
  import opened RunnerInv
  import opened RunnerReach
  import opened RunnerLaws
  import opened RunnerWalks

  /** What was written between two states of a behaviour that follow each other. */
  predicate Wrote(s: State, s': State, e: Event) {
    s'.track == s.track + [e]
  }

  lemma WroteAdds(c: Config, s: State, a: Action, e: Event)
    requires Enabled(c, s, a) && Wrote(s, Do(c, s, a), e)
    ensures Adds(c, s, a, e)
  {
    hide Drive, MayWrite, WasSubmitted;
    assert Do(c, s, a).track[|s.track|] == e;
  }

  lemma OneWrite(c: Config, states: seq<State>, k: nat, e: Event) returns (a: Action)
    requires Behaviour(c, states) && k + 1 < |states| && Wrote(states[k], states[k + 1], e)
    ensures Inv(c, states[k]) && Enabled(c, states[k], a) && Adds(c, states[k], a, e) && states[k + 1] == Do(c, states[k], a)
  {
    hide Behaviour, Inv, Enabled, Do, Adds, Wrote;
    a := OneStep(c, states, k);
    WroteAdds(c, states[k], a, e);
  }

  /** While a pass advances a run, the run it carries, read once and moved as it writes, is what replaying the
      Track gives, whatever clients wrote meanwhile. */
  lemma CarriedIsReplayed(c: Config, states: seq<State>, k: nat)
    requires Behaviour(c, states) && k < |states| && states[k].claim.Some?
    requires states[k].claim.value.accepting && !states[k].claim.value.pc.PickingUp?
    ensures ReplayOf(states[k].track) == At(states[k].claim.value.run) && states[k].claim.value.run.state.Running?
  {
    hide Behaviour, Inv, ReplayOf;
    BehaviourKeeps(c, states, k);
    CarriedRunIsReplayed(c, states[k]);
  }

  /** Only the call that holds the run's claim moves the run; and a run is recorded interrupted only by a host's
      start that holds the claim and is not advancing the run. */
  lemma OnlyTheHolderMoves(c: Config, states: seq<State>, k: nat, e: Event)
    requires Behaviour(c, states) && k + 1 < |states| && Wrote(states[k], states[k + 1], e)
    ensures !IsFact(e) && !e.OpSubmitted? ==> states[k].claim.Some?
    ensures e.RunInterrupted? ==> states[k].claim.Some? && states[k].claim.value.call.HostStart? && !states[k].claim.value.accepting
  {
    hide Behaviour, Inv, Adds, Wrote, MayWrite, WasSubmitted, Do;
    var a := OneWrite(c, states, k, e);
    OnlyAStartInterrupts(c, states[k], a, e);
  }

  /** Whoever claims a worker's teardown claims it alone: the executor is called once, and a second time only by
      the driver after a cancel's own call raised; never before it is claimed, nor while a cancel's is under way. */
  lemma TornDownOnce(c: Config, states: seq<State>, k: nat)
    requires Behaviour(c, states) && k < |states| && states[k].claim.Some? && states[k].claim.value.attempt.Some?
    ensures var a := states[k].claim.value.attempt.value;
            && Shape(a.torn) && (a.torn != [] ==> a.released)
            && (a.cancelTeardown.Asked? ==> a.torn == [] && a.released)
  {
    hide Behaviour, PassInv, Legal, Fold, Shape;
    BehaviourKeeps(c, states, k);
    TeardownIsClaimedOnce(c, Fold(states[k].track), states[k].claim.value);
  }

  lemma MovesOnByHolder(c: Config, s: State, a: Action, e: Event)
    requires Enabled(c, s, a) && Adds(c, s, a, e) && MovesOn(e)
    ensures a.Advance? && s.claim.Some?
  {
    hide Drive, WasSubmitted, ReplayOf, CancelRequestOf;
  }

  /** Before a step's result, the next step's start or the run's end is written, the last attempt's worker has
      been torn down and that has returned; or it raised, the run ends failed or cancelled, and a `step_failed`
      that names the leaked worker stands on the Track. */
  lemma WorkerGoneFirst(c: Config, states: seq<State>, k: nat, e: Event)
    requires Behaviour(c, states) && k + 1 < |states| && Wrote(states[k], states[k + 1], e) && MovesOn(e)
    ensures states[k].claim.Some?
    ensures states[k].claim.value.attempt.Some? ==>
              var a := states[k].claim.value.attempt.value;
              && (a.worker ==> a.torn != [] && a.released && !a.cancelTeardown.Asked? && a.torn[|a.torn| - 1].raised == a.teardownError)
              && (a.teardownError ==>
                    && (e.RunFailed? || e.RunCancelled?)
                    && exists m :: 0 <= m < |states[k].track| && states[k].track[m].StepFailed? && states[k].track[m].step == a.step.name
                         && states[k].track[m].attempt == a.number && states[k].track[m].leaked)
  {
    hide Behaviour, Inv, Enabled, Adds, Wrote, MovesOn, Do;
    var a := OneWrite(c, states, k, e);
    MovesOnByHolder(c, states[k], a, e);
    if states[k].claim.value.attempt.Some? {
      WorkerGoneBeforeMovingOn(c, states[k], a.choice, e);
    }
  }

  lemma StaysDone(c: Config, s: State, a: Action)
    requires Inv(c, s) && Enabled(c, s, a) && SamePass(s, Do(c, s, a)) && s.claim.value.pc.Done?
    ensures Do(c, s, a).claim == s.claim
    ensures Do(c, s, a).track == s.track || exists e :: (IsIntent(e) || e.OpSubmitted?) && Wrote(s, Do(c, s, a), e)
  {
    hide Legal, Fold, PassInv, Drive, WasSubmitted, ReplayOf, CancelRequestOf;
    DoneIsQuiet(c, Fold(s.track), s.claim.value);
    if a.Advance? {
      DoneReleases(c, s.track, s.claim.value, a.choice);
    } else if a.ClientWrites? {
      assert Wrote(s, Do(c, s, a), a.intent);
    } else if a.ClientSubmits? {
      assert Wrote(s, Do(c, s, a), OpSubmitted(a.op, a.at));
    }
  }

  lemma DoneIsQuiet(c: Config, b: Book, p: Pass)
    requires PassInv(c, b, p) && p.pc.Done?
    ensures !p.accepting && (p.attempt.Some? ==> !p.attempt.value.cancelTeardown.Asked?)
  {
  }

  /** A pass whose end is written stays as it is until it lets the run go: no cancel of it is accepted, none of
      its worker's teardowns is still under way, and what the Track gains meanwhile is what clients ask for. */
  lemma NothingAfterTheEnd(c: Config, states: seq<State>, k: nat)
    requires Behaviour(c, states) && k + 1 < |states| && SamePass(states[k], states[k + 1])
    requires states[k].claim.value.pc.Done?
    ensures states[k + 1].claim == states[k].claim
    ensures states[k + 1].track == states[k].track || exists e :: (IsIntent(e) || e.OpSubmitted?) && Wrote(states[k], states[k + 1], e)
  {
    hide Behaviour, Inv, Enabled, Do;
    var a := OneStep(c, states, k);
    StaysDone(c, states[k], a);
  }

  /** A pass that has begun to advance a run lets it go only by writing an end, unless the host stops: it never
      just gives up, whatever the executor and the worker did. */
  lemma LetsGoOnlyByEnding(c: Config, states: seq<State>, k: nat)
    requires Behaviour(c, states) && k + 1 < |states| && SamePass(states[k], states[k + 1])
    requires states[k].claim.value.accepting && !states[k].claim.value.pc.Done? && states[k + 1].claim.value.pc.Done?
    ensures exists e :: IsEnd(e) && Wrote(states[k], states[k + 1], e)
  {
    hide Behaviour, Inv, Enabled, Do, IsEnd;
    var a := OneStep(c, states, k);
    AdvancingEndsByWriting(c, states[k], a);
    var e :| IsEnd(e) && Do(c, states[k], a).track == states[k].track + [e];
    assert Wrote(states[k], states[k + 1], e);
  }

  /** The result an event carries. */
  function ResultOf(e: Event): Option<Kept> {
    match e
    case StepCompleted(_, _, _, result, _) => Some(result)
    case GateEscalated(_, _, Some(held)) => Some(held.result)
    case _ => None
  }

  /** A payload is carried as it is up to the threshold, and otherwise found under the reference that is carried. */
  predicate Carries(c: Config, result: Kept, payload: string, payloads: map<string, string>) {
    match result
    case Inline(carried) => carried == payload && |payload| <= c.inlineMax
    case ByRef(key) => |payload| > c.inlineMax && key in payloads && payloads[key] == payload
  }

  lemma AnswerCarried(c: Config, b: Book, track: seq<Event>, p: Pass, ch: Choice, e: Event, payloads: map<string, string>)
    requires PassInv(c, b, p) && Drive(c, track, p, ch).event == Some(e) && PutFirst(c, p, payloads)
    requires p.pc.KeepWriting? || p.pc == Ending(AtGate)
    ensures p.attempt.Some? && p.attempt.value.outcome.Answer? && ResultOf(e).Some?
    ensures var payload := p.attempt.value.outcome.envelope.payload;
            Carries(c, ResultOf(e).value, payload, payloads) && (e.GateEscalated? ==> e.held.value.shown == payload)
  {
    hide LiveAt, UsageAt, TeardownAt, Walks, Tally, LetGo, Keys.Key, Distinct, CallInv, StepInv, AttemptInv, OnCall, OnWalk,
         OnTeardown, OnWorker;
  }

  lemma PutBefore(c: Config, s: State, a: Action, e: Event)
    requires Inv(c, s) && Enabled(c, s, a) && Adds(c, s, a, e) && a.Advance?
    requires s.claim.value.pc.KeepWriting? || s.claim.value.pc == Ending(AtGate)
    ensures Do(c, s, a).payloads == s.payloads
  {
    hide Legal, Fold, PassInv, Drive, WritesAs, WasSubmitted, MayWrite;
    DriveTells(c, s.track, s.claim.value, a.choice);
  }

  lemma WrittenByAnswer(c: Config, s: State, a: Action, e: Event)
    requires Inv(c, s) && Enabled(c, s, a) && Adds(c, s, a, e) && (e.GateEscalated? || (e.StepCompleted? && e.answers.None?))
    ensures a.Advance? && s.claim.Some? && (s.claim.value.pc.KeepWriting? || s.claim.value.pc == Ending(AtGate))
  {
    hide Legal, Fold, PassInv, Drive, WasSubmitted, MayWrite;
    AddsTells(c, s, a, e);
    if s.claim.value.pc.Approving? {
      ApprovingAnswers(c, s.track, s.claim.value, a.choice, e);
    }
  }

  /** What a step completes with, and what an approver is shown, is what the worker answered: carried in the event, or
      kept under the reference it carries from that moment on, whatever later attempts, retries, crashes and other runs
      write. */
  lemma ResultIsTheAnswer(c: Config, states: seq<State>, k: nat, j: nat, e: Event)
    requires Behaviour(c, states) && k < j < |states| && Wrote(states[k], states[k + 1], e)
    requires e.GateEscalated? || (e.StepCompleted? && e.answers.None?)
    ensures states[k].claim.Some? && states[k].claim.value.attempt.Some? && states[k].claim.value.attempt.value.outcome.Answer?
    ensures var payload := states[k].claim.value.attempt.value.outcome.envelope.payload;
            && ResultOf(e).Some? && Carries(c, ResultOf(e).value, payload, states[j].payloads)
            && (e.GateEscalated? ==> e.held.value.shown == payload)
  {
    hide Behaviour, Legal, Fold, PassInv, WritesAs, Do, Drive, PutFirst, KeptFor, MayWrite, WasSubmitted, RefOf, Carries;
    var a := OneWrite(c, states, k, e);
    WrittenByAnswer(c, states[k], a, e);
    PayloadsKept(c, states, k);
    AnswerCarried(c, Fold(states[k].track), states[k].track, states[k].claim.value, a.choice, e, states[k].payloads);
    PutBefore(c, states[k], a, e);
    CarriedOn(c, states, k, j, e);
  }

  lemma CarriedOn(c: Config, states: seq<State>, k: nat, j: nat, e: Event)
    requires Behaviour(c, states) && k < j < |states| && Wrote(states[k], states[k + 1], e) && ResultOf(e).Some?
    ensures forall payload :: Carries(c, ResultOf(e).value, payload, states[k + 1].payloads)
              ==> Carries(c, ResultOf(e).value, payload, states[j].payloads)
  {
    hide Behaviour;
    assert states[k + 1].track[|states[k].track|] == e;
    if ResultOf(e).value.ByRef? {
      assert RefOf(e) == Some(ResultOf(e).value.key);
      PayloadNeverOverwritten(c, states, k + 1, j, |states[k].track|);
    }
  }

  /** The tracker a pass carries is, at every boundary, the one a restarted host would rebuild from the Track. */
  lemma TrackerIsTheRebuiltOne(c: Config, states: seq<State>, k: nat)
    requires Behaviour(c, states) && k < |states| && states[k].claim.Some? && c.budget.Some?
    requires AtBoundary(states[k].claim.value.pc) || states[k].claim.value.pc.Keeping? || states[k].claim.value.pc.KeepWriting?
    ensures states[k].claim.value.tracker.Some? && Rebuilt(c.budget, states[k].track) == states[k].claim.value.tracker
  {
    hide Behaviour, Inv, Rebuilt;
    BehaviourKeeps(c, states, k);
    TrackerIsRebuilt(c, states[k]);
  }

  /** A run is recorded `completed` only by a pass that found every step of its Op completed when it began, or while
      the recorded spending is known and strictly within every limit. */
  lemma CompletesWithin(c: Config, states: seq<State>, k: nat) returns (began: nat)
    requires Behaviour(c, states) && k + 1 < |states| && Wrote(states[k], states[k + 1], RunCompleted) && c.budget.Some?
    ensures states[k].claim.Some? && began < k && SamePass(states[began], states[k]) && states[began].claim.value.pc.Preparing?
    ensures states[k].claim.value.spentOn.None? <==> NothingLeft(states[k].claim.value.op, Fold(states[began].track).completed)
    ensures || NothingLeft(states[k].claim.value.op, Fold(states[began].track).completed)
            || (Rebuilt(c.budget, states[k].track).Some? && Within(c.budget.value, Rebuilt(c.budget, states[k].track).value)
                && BelowLimits(c.budget.value, states[k].track))
  {
    hide Behaviour, PassInv, Adds, Wrote, Rebuilt, Within, BelowLimits, MayWrite, WasSubmitted, Do, Drive, Reached, NothingLeft, Legal, Fold;
    var a := OneWrite(c, states, k, RunCompleted);
    CompletesWithinBudget(c, states[k], a);
    EveryTrackIsLegal(c, states, k);
    RebuiltBelow(c, states[k].track);
    AddsTells(c, states[k], a, RunCompleted);
    began := BeganAt(c, states, k);
    ReachedMeans(c, Fold(states[k].track), states[k].claim.value, Fold(states[began].track).completed);
  }

  lemma GateHeld(c: Config, b: Book, asked: Option<string>, p: Pass, e: Event)
    requires PassInv(c, b, p) && WritesAs(p, e) && Allowed(c, b, asked, e)
    ensures e.GateEscalated? ==> GateSays(p, true) && p.attempt.value.step.name == e.step && p.attempt.value.step in p.op.steps
    ensures e.StepCompleted? && e.answers.None? ==>
              GateSays(p, false) && p.attempt.value.step.name == e.step && p.attempt.value.step in p.op.steps
    ensures e.GateEscalated? || (e.StepCompleted? && e.answers.None?) ==>
              p.attempt.value.outcome.envelope.ok && !p.attempt.value.teardownError
  {
    hide TeardownAt, LiveAt, UsageAt, Walks, Tally, LetGo, CallInv, AttemptInv, Evaluate, Distinct, ReplayOne, Affordable;
  }

  lemma Admitted(c: Config, track: seq<Event>, e: Event)
    requires Legal(c, track + [e])
    ensures Allowed(c, Fold(track), CancelRequestOf(track), e)
  {
    hide Legal, Fold, Allowed, CancelRequestOf;
    OneEvent(c, track + [e], |track|);
    assert (track + [e])[..|track|] == track;
  }

  /** A person looks at a result exactly when the step's Gate asks for one: what is escalated is what the Gate
      escalates, policy by policy, and a step completes without an approval only with a result its Gate lets pass. Either
      follows an answer that is ok, from a worker that was torn down. */
  lemma GateDecides(c: Config, states: seq<State>, k: nat, e: Event)
    requires Behaviour(c, states) && k + 1 < |states| && Wrote(states[k], states[k + 1], e)
    requires e.GateEscalated? || (e.StepCompleted? && e.answers.None?)
    ensures states[k].claim.Some? && states[k].claim.value.attempt.Some?
    ensures var p := states[k].claim.value;
            && p.attempt.value.step in p.op.steps && p.attempt.value.step.name == e.step && p.attempt.value.outcome.Answer?
            && (e.GateEscalated? <==> Evaluate(p.attempt.value.step.gate, p.attempt.value.outcome.envelope.problems).Escalate?)
    ensures var gate, problems := states[k].claim.value.attempt.value.step.gate, states[k].claim.value.attempt.value.outcome.envelope.problems;
            && (gate.Never? ==> !e.GateEscalated?)
            && (gate.OnError? ==> (e.GateEscalated? <==> Error in problems))
            && (gate.OnWarn? ==> (e.GateEscalated? <==> problems != []))
            && (gate.Always? ==> e.GateEscalated?)
    ensures states[k].claim.value.attempt.value.outcome.envelope.ok && !states[k].claim.value.attempt.value.teardownError
  {
    hide Behaviour, Legal, Fold, PassInv, Allowed, Evaluate, WritesAs, Adds, Do, WasSubmitted, MayWrite;
    var a := OneWrite(c, states, k, e);
    MovesOnByHolder(c, states[k], a, e);
    AddsTells(c, states[k], a, e);
    BehaviourKeeps(c, states, k + 1);
    Admitted(c, states[k].track, e);
    GateHeld(c, Fold(states[k].track), CancelRequestOf(states[k].track), states[k].claim.value, e);
    var answered := states[k].claim.value.attempt.value;
    EvaluateAsks(answered.step.gate, answered.outcome.envelope.problems);
  }

  /** Under a Gate that always escalates, a step completes only as the answer to an approval. */
  lemma AlwaysMeansAPerson(c: Config, states: seq<State>, k: nat, e: Event)
    requires Behaviour(c, states) && k + 1 < |states| && Wrote(states[k], states[k + 1], e)
    requires e.StepCompleted? && e.answers.None?
    ensures states[k].claim.Some?
    ensures exists step :: step in states[k].claim.value.op.steps && step.name == e.step && !step.gate.Always?
  {
    hide Behaviour;
    GateDecides(c, states, k, e);
    var step := states[k].claim.value.attempt.value.step;
    assert step in states[k].claim.value.op.steps && step.name == e.step;
  }

  // ---- Decisions --------------------------------------------------------------------------------

  lemma DecidingWrites(c: Config, b: Book, track: seq<Event>, p: Pass, ch: Choice, e: Event)
    requires PassInv(c, b, p) && p.pc.Writing? && p.call.DecideRun? && Drive(c, track, p, ch).event == Some(e)
    ensures b.replayed == At(p.run) && p.run.state == WaitingAtGate && p.call.escalation == p.run.openEscalation
    ensures e == if p.call.outcome == SendBack && c.reviseLimit.Some?
                    && p.run.Escalations(p.run.openStep.GetOr("")) > c.reviseLimit.value
                 then RunFailed(p.run.openStep, "revise_limit_exceeded",
                                Some(Revision(c.reviseLimit.value, p.call.escalation, p.call.findings)))
                 else GateDecided(p.run.openStep, p.call.outcome, p.call.escalation, p.call.by_actor, p.call.findings)
  {
    hide OnWalk, OnEnd, OnTeardown, OnOutcome, OnWorker, OnReading, OnOpening, OnPreparing, WasSubmitted;
    DecisionIs(p.run, p.call.outcome, p.call.escalation, p.call.by_actor, p.call.findings, c.reviseLimit);
    hide Decide;
  }

  lemma {:induction false} OpenStepEscalated(c: Config, t: seq<Event>)
    requires Legal(c, t) && Fold(t).replayed.At? && Fold(t).replayed.run.state == WaitingAtGate
    ensures Fold(t).replayed.run.openStep.Some?
  {
    hide Fold;
    LegalSound(c, t, |t|);
    assert t[..|t|] == t;
  }

  /** A decision is recorded as it was made: of the open escalation, with its outcome, who made it and what they found.
      A send back fails the run instead exactly when the step has escalated more often than the limit allows. */
  lemma DecisionsAsMade(c: Config, states: seq<State>, k: nat, e: Event)
    requires Behaviour(c, states) && k + 1 < |states| && Wrote(states[k], states[k + 1], e)
    requires states[k].claim.Some? && states[k].claim.value.pc.Writing? && states[k].claim.value.call.DecideRun?
    requires !IsIntent(e) && !e.OpSubmitted?
    ensures ReplayOf(states[k].track).At? && ReplayOf(states[k].track).run.openStep.Some?
    ensures var call, run := states[k].claim.value.call, ReplayOf(states[k].track).run;
            && run.state == WaitingAtGate && call.escalation == run.openEscalation
            && if call.outcome == SendBack && c.reviseLimit.Some?
                  && EscalationsOf(states[k].track, run.openStep.value) > c.reviseLimit.value
               then e == RunFailed(run.openStep, "revise_limit_exceeded", Some(Revision(c.reviseLimit.value, call.escalation, call.findings)))
               else e == GateDecided(run.openStep, call.outcome, call.escalation, call.by_actor, call.findings)
  {
    hide Behaviour, Legal, Fold, PassInv, Drive, WritesAs, Do, WasSubmitted, MayWrite, ReplayOf, EscalationsOf;
    var a := OneWrite(c, states, k, e);
    AddsTells(c, states[k], a, e);
    var t := states[k].track;
    DecidingWrites(c, Fold(t), t, states[k].claim.value, a.choice, e);
    ReplayNeverRefuses(c, t);
    OpenStepEscalated(c, t);
    SendBacksCounted(c, t, |t|, ReplayOf(t).run.openStep.value);
    assert t[..|t|] == t;
  }

  // ---- Failures ---------------------------------------------------------------------------------

  /** Why an attempt has no result: it broke, its worker said no, or its worker could not be torn down. */
  predicate NoResult(a: Attempt, e: Event)
    requires e.StepFailed?
  {
    && e.leaked == a.teardownError
    && match a.outcome
       case Broken(error) => e.error == error
       case Answer(envelope) => if !envelope.ok then e.error == envelope.code else a.teardownError && e.error == "TeardownFailed"
  }

  lemma FailureHeld(c: Config, b: Book, track: seq<Event>, p: Pass, ch: Choice, e: Event)
    requires PassInv(c, b, p) && Drive(c, track, p, ch).event == Some(e) && e.StepFailed? && (p.pc.FailingStep? || p.pc.CancellingStep?)
    ensures p.attempt.Some? && e.step == p.attempt.value.step.name && e.attempt == p.attempt.value.number
    ensures p.cancelledBy.None? ==> NoResult(p.attempt.value, e)
    ensures p.cancelledBy.Some? ==> p.attempt.value.teardownError && e.leaked && e.error == "TeardownFailed"
  {
    hide LiveAt, UsageAt, TeardownAt, Walks, Tally, LetGo, Keys.Key, Distinct, CallInv, StepInv, AttemptInv, OnCall, OnWalk,
         OnTeardown, OnWorker, OnEnd, OnJudging, OnKeeping, OnKeepWriting;
  }

  /** A step is recorded failed only for a reason, and with it: its attempt broke, and with what; its worker said no, and
      with what code; or its worker could not be torn down, which is recorded beside either. In a cancelled run only the
      last is recorded. */
  lemma FailsForAReason(c: Config, states: seq<State>, k: nat, e: Event)
    requires Behaviour(c, states) && k + 1 < |states| && Wrote(states[k], states[k + 1], e) && e.StepFailed?
    ensures states[k].claim.Some? && states[k].claim.value.attempt.Some?
    ensures var p := states[k].claim.value;
            && e.step == p.attempt.value.step.name && e.attempt == p.attempt.value.number
            && if p.cancelledBy.None? then NoResult(p.attempt.value, e)
               else p.attempt.value.teardownError && e.leaked && e.error == "TeardownFailed"
  {
    hide Behaviour, Legal, Fold, PassInv, Drive, Do, WasSubmitted, MayWrite, NoResult;
    var a := OneWrite(c, states, k, e);
    AddsTells(c, states[k], a, e);
    FailureHeld(c, Fold(states[k].track), states[k].track, states[k].claim.value, a.choice, e);
  }

  lemma RunFailureHeld(c: Config, b: Book, track: seq<Event>, p: Pass, ch: Choice, e: Event)
    requires PassInv(c, b, p) && Drive(c, track, p, ch).event == Some(e) && e.RunFailed? && p.pc.Ending?
    ensures e.revision.None?
    ensures if p.pc.end.Unaccountable? then e.at_step.None? && e.error == "UsageUnavailable"
            else p.pc.end.Broke? && p.attempt.Some? && e.at_step == Some(p.attempt.value.step.name)
                 && if p.attempt.value.teardownError then e.error == "TeardownFailed"
                    else if p.attempt.value.outcome.Broken? then e.error == p.attempt.value.outcome.error
                    else e.error == if p.attempt.value.outcome.envelope.ok then "TeardownFailed" else p.attempt.value.outcome.envelope.code
  {
    hide LiveAt, UsageAt, TeardownAt, Walks, Tally, LetGo, Keys.Key, Distinct, CallInv, StepInv, AttemptInv, OnCall, OnWalk,
         OnTeardown, OnWorker, OnOutcome, OnClosing;
  }

  /** A run is recorded failed while it advances only for a reason, and with it: its spending cannot be accounted for, or a
      step has no result, its worker's teardown first. */
  lemma RunFailsForAReason(c: Config, states: seq<State>, k: nat, e: Event)
    requires Behaviour(c, states) && k + 1 < |states| && Wrote(states[k], states[k + 1], e) && e.RunFailed?
    requires states[k].claim.Some? && !states[k].claim.value.pc.Writing?
    ensures var p := states[k].claim.value;
            if e.at_step.None? then e.error == "UsageUnavailable"
            else p.attempt.Some? && e.at_step == Some(p.attempt.value.step.name)
                 && if p.attempt.value.teardownError then e.error == "TeardownFailed"
                    else if p.attempt.value.outcome.Broken? then e.error == p.attempt.value.outcome.error
                    else e.error == if p.attempt.value.outcome.envelope.ok then "TeardownFailed" else p.attempt.value.outcome.envelope.code
  {
    hide Behaviour, Legal, Fold, PassInv, Drive, Do, WasSubmitted, MayWrite;
    var a := OneWrite(c, states, k, e);
    AddsTells(c, states[k], a, e);
    RunFailureHeld(c, Fold(states[k].track), states[k].track, states[k].claim.value, a.choice, e);
  }

  // ---- What the parts of a step decide ----------------------------------------------------------

  /** An answer counts only as a whole: an envelope, whose payload is JSON if it is ok, and whose usage is one the budget
      can account for. Whatever else comes back breaks the attempt, and is reported as unknown spending. */
  predicate CountsAsAWhole(c: Config, next: Pass, reply: Reply) {
    && next.pc.Accounting? && next.attempt.Some?
    && (next.attempt.value.outcome.Answer? <==>
          reply.Returned? && (reply.envelope.ok ==> reply.json) && ValidateUsage(reply.usage, c.budget).Ok?)
    && (next.attempt.value.outcome.Answer? ==>
          next.attempt.value.outcome.envelope == reply.envelope
          && next.pc.report == ValidateUsage(reply.usage, c.budget).value && next.attempt.value.usage == next.pc.report)
    && (next.pc.report.Some? ==> reply.Returned? && ValidateUsage(reply.usage, c.budget) == Ok(next.pc.report))
  }

  lemma AnswersAsAWhole(c: Config, p: Pass, a: Attempt, ch: Choice)
    ensures OnInteracting(c, p, a, ch).pass.Some?
    ensures CountsAsAWhole(c, OnInteracting(c, p, a, ch).pass.value, ch.reply) == true
  {
    hide ValidateUsage;
    match ch.reply {
      case Raised(error) =>
        assert OnInteracting(c, p, a, ch) == Goes(With(p, a.(outcome := Broken(error)), Accounting(None)));
      case NotAnEnvelope =>
        assert OnInteracting(c, p, a, ch) == Goes(With(p, a.(outcome := Broken("EnvelopeInvalid")), Accounting(None)));
      case Returned(envelope, json, raw) =>
        ReturnedAsAWhole(c, p, a, ch);
    }
  }

  lemma ReturnedAsAWhole(c: Config, p: Pass, a: Attempt, ch: Choice)
    requires ch.reply.Returned?
    ensures OnInteracting(c, p, a, ch).pass.Some?
    ensures CountsAsAWhole(c, OnInteracting(c, p, a, ch).pass.value, ch.reply) == true
  {
    hide CountsAsAWhole, With, ValidateUsage;
    var answered, report := ReturnedGoes(c, p, a, ch);
    Whole(c, p, answered, report, ch.reply);
  }

  /** What the attempt goes on with when something was returned. */
  lemma ReturnedGoes(c: Config, p: Pass, a: Attempt, ch: Choice) returns (answered: Attempt, report: Option<Usage>)
    requires ch.reply.Returned?
    ensures OnInteracting(c, p, a, ch) == Goes(With(p, answered, Accounting(report)))
    ensures AnsweredSo(c, answered, report, ch.reply) && answered.step == a.step
  {
    hide With, ValidateUsage;
    var unreadable := ch.reply.envelope.ok && !ch.reply.json;
    match ValidateUsage(ch.reply.usage, c.budget)
    case Err(_) =>
      answered, report := a.(answered := !unreadable, outcome := Broken("UsageUnavailable")), None;
    case Ok(usage) =>
      var outcome := if unreadable then Broken("EnvelopeInvalid") else Answer(ch.reply.envelope);
      answered, report := a.(answered := !unreadable, usage := usage, outcome := outcome), usage;
  }

  predicate AnsweredSo(c: Config, a: Attempt, report: Option<Usage>, reply: Reply)
    requires reply.Returned?
  {
    match ValidateUsage(reply.usage, c.budget)
    case Err(_) => a.outcome.Broken? && report.None?
    case Ok(usage) =>
      && report == usage && a.usage == usage
      && if reply.envelope.ok && !reply.json then a.outcome.Broken? else a.outcome == Answer(reply.envelope)
  }

  lemma Whole(c: Config, p: Pass, a: Attempt, report: Option<Usage>, reply: Reply)
    requires reply.Returned?
    requires AnsweredSo(c, a, report, reply)
    ensures CountsAsAWhole(c, With(p, a, Accounting(report)), reply) == true
  {
    hide ValidateUsage;
  }

  /** Where a call goes from what it reads of the run: it acts exactly where it may. */
  lemma CallsActWhereTheyMay(p: Pass, track: seq<Event>)
    requires Fold(track).op.Some? <==> ReplayOf(track).At?
    ensures var next, state := OnReading(p, track).pass.value.pc, ReplayOf(track);
            match p.call
            case Submit(op, _) =>
              && (next.Writing? <==> state.NeverSubmitted? && track == [])
              && (next.Opening? <==> state.At? && state.run.state == Submitted && Fold(track).op == Some(op))
              && (next.Writing? || next.Opening? || next.Done?)
            case RetryRun => next == if state.At? && state.run.state in {Failed, Interrupted} then Writing else Done
            case DecideRun(outcome, _, _, _) =>
              next == if state.At? && state.run.state == WaitingAtGate && (outcome == Approve ==> !HoldsNothing(track, state.run))
                      then Writing else Done
            case HostStart => next == if state.At? && state.run.state in {Running, WaitingAtGate} then Writing else Done
            case CancelRun(_) => next == if state.At? then Writing else Done
  {
    hide Fold, ReplayOf, HoldsNothing;
  }

  /** After what it writes a call advances the run exactly when that leaves the run to advance: a submission, a retry, or a
      decision that does not end it. */
  lemma CallsGoOn(c: Config, p: Pass, track: seq<Event>)
    requires OnWriting(c, p, track).event.Some? && OnWriting(c, p, track).pass.Some?
    ensures var e, next := OnWriting(c, p, track).event.value, OnWriting(c, p, track).pass.value.pc;
            && (next.Opening? || next.Done?)
            && (next.Opening? <==> e.OpSubmitted? || e.RetryRequested? || (e.GateDecided? && e.outcome != Reject))
  {
    hide WasSubmitted;
  }

  /** With what it read a pass goes on to the steps; under a budget, only if every report of its history names what is
      limited, and otherwise the run fails for it. */
  lemma PreparesExactly(c: Config, p: Pass)
    requires Legal(c, p.history)
    ensures var next := OnPreparing(c, p).pass.value;
            && (next.pc.AtStep? <==> c.budget.None? || AllNamed(c.budget.value, p.history))
            && (next.pc == Closing(Unaccountable) <==> c.budget.Some? && !AllNamed(c.budget.value, p.history))
            && next.i == 0 && next.completed == (set s | s in Fold(p.history).completed) && next.retries == Fold(p.history).retries
            && (c.budget.Some? && next.pc.AtStep? ==> next.tracker == Some(Spend(TokensNamed(p.history), CostNamed(p.history))))
  {
    hide Legal, Fold, Rebuilt, AllNamed, TokensNamed, CostNamed;
    RebuiltIsTally(c, p.history);
  }

  lemma InvokedUncancelled(c: Config, track: seq<Event>, p: Pass, ch: Choice, e: Event)
    requires Drive(c, track, p, ch).event == Some(e) && e.WorkerFact? && e.fact == InteractionStarted
    requires !BeforeSteps(p.pc) && !AtBoundary(p.pc) && !AtEnd(p.pc)
    ensures p.cancelledBy.None?
  {
    hide OnCall, OnWalk, OnEnd, OnOutcome, Keys.Instance, OnInteracting;
    if p.pc.Interacting? && p.attempt.Some? {
      var after, report := InteractingGoes(c, p, p.attempt.value, ch);
    } else if p.pc.Judging? {
      JudgingWritesNothing(c, track, p, ch);
    }
  }

  lemma JudgingWritesNothing(c: Config, track: seq<Event>, p: Pass, ch: Choice)
    requires p.pc.Judging?
    ensures Drive(c, track, p, ch).event.None?
  {
    hide Fold, Check, Evaluate, Succeeded, Add, OnCall, OnWalk, OnWorker, OnTeardown, OnEnd;
  }

  /** No worker is asked anything once the run's cancel was accepted. */
  lemma AskedOnlyUncancelled(c: Config, states: seq<State>, k: nat, e: Event)
    requires Behaviour(c, states) && k + 1 < |states| && Wrote(states[k], states[k + 1], e)
    requires e.WorkerFact? && e.fact == InteractionStarted
    ensures states[k].claim.Some? && states[k].claim.value.cancelledBy.None?
  {
    hide Behaviour, Legal, Fold, PassInv, Drive, Do, WasSubmitted, MayWrite;
    var a := OneWrite(c, states, k, e);
    AddsTells(c, states[k], a, e);
    InvokedUncancelled(c, states[k].track, states[k].claim.value, a.choice, e);
  }

  // ---- The worker that is started ---------------------------------------------------------------

  /** The executor gave the worker of this step's attempt the token. */
  ghost predicate GivenAt(c: Config, states: seq<State>, j: nat, step: string, number: nat, token: string) {
    && j + 1 < |states| && states[j].claim.Some? && states[j].claim.value.pc.Materializing? && states[j].claim.value.attempt.Some?
    && states[j].claim.value.attempt.value.step.name == step && states[j].claim.value.attempt.value.number == number
    && exists choice: Choice :: !choice.raises && choice.token == Some(token) && Enabled(c, states[j], Advance(choice))
                                && states[j + 1] == Do(c, states[j], Advance(choice))
  }

  lemma BringingUp(c: Config, track: seq<Event>, p: Pass, ch: Choice, q: Pass, up: Attempt) returns (a: Attempt)
    requires Drive(c, track, p, ch).pass == Some(q) && BroughtUp(q.pc) && q.attempt == Some(up)
    requires p.pc.Materializing? || p.pc.Recording?
    ensures p.attempt == Some(a) && up.step == a.step && up.number == a.number
    ensures up.token == if p.pc.Materializing? then ch.token else a.token
    ensures p.pc.Materializing? ==> !ch.raises
  {
    hide OnCall, OnWalk, OnEnd, OnOutcome, OnTeardown, OnInteracting;
    a := p.attempt.value;
  }

  /** Whatever else lands between the driver's steps leaves the worker's bringing up as it is. */
  lemma AsidesBringUp(c: Config, s: State, a: Action, q: Pass, up: Attempt) returns (p: Pass, was: Attempt)
    requires Enabled(c, s, a) && !a.Advance? && Do(c, s, a).claim == Some(q) && BroughtUp(q.pc) && q.attempt == Some(up)
    ensures s.claim == Some(p) && p.pc == q.pc && p.attempt == Some(was)
    ensures up.step == was.step && up.number == was.number && up.token == was.token
  {
    hide Drive, WasSubmitted, MayWrite;
    p := s.claim.value;
    was := p.attempt.value;
  }

  lemma {:induction false} TokenWasGiven(c: Config, states: seq<State>, k: nat) returns (j: nat)
    requires Behaviour(c, states) && k < |states| && states[k].claim.Some? && states[k].claim.value.attempt.Some?
    requires BroughtUp(states[k].claim.value.pc) && states[k].claim.value.attempt.value.token.Some?
    ensures var a := states[k].claim.value.attempt.value;
            j < k && GivenAt(c, states, j, a.step.name, a.number, a.token.value)
  {
    hide Behaviour, Enabled, Do, GivenAt, Legal, Fold, PassInv;
    if k == 0 {
      StartsAtStart(c, states);
    } else {
      var a := OneStep(c, states, k - 1);
      var q := states[k].claim.value;
      if a.Advance? {
        var p := Driven(c, states[k - 1], a.choice);
        if p.pc.Reading? {
          ReadingTells(c, states[k - 1].track, p, a.choice);
        } else if p.pc.Done? {
          DoneReleases(c, states[k - 1].track, p, a.choice);
        } else {
          DriveTells(c, states[k - 1].track, p, a.choice);
        }
        var was := BringingUp(c, states[k - 1].track, p, a.choice, q, q.attempt.value);
        if p.pc.Materializing? {
          j := k - 1;
          GivenNow(c, states, j, a.choice);
        } else {
          j := TokenWasGiven(c, states, k - 1);
        }
      } else {
        var p, was := AsidesBringUp(c, states[k - 1], a, q, q.attempt.value);
        j := TokenWasGiven(c, states, k - 1);
      }
    }
  }

  lemma Driven(c: Config, s: State, ch: Choice) returns (p: Pass)
    requires Enabled(c, s, Advance(ch))
    ensures s.claim == Some(p) && Do(c, s, Advance(ch)).claim == Drive(c, s.track, p, ch).pass
  {
    hide Drive;
    p := s.claim.value;
  }

  lemma GivenNow(c: Config, states: seq<State>, j: nat, ch: Choice)
    requires j + 1 < |states| && states[j].claim.Some? && states[j].claim.value.pc.Materializing? && states[j].claim.value.attempt.Some?
    requires Enabled(c, states[j], Advance(ch)) && states[j + 1] == Do(c, states[j], Advance(ch)) && !ch.raises && ch.token.Some?
    ensures var a := states[j].claim.value.attempt.value; GivenAt(c, states, j, a.step.name, a.number, ch.token.value)
  {
    hide Enabled, Do;
  }

  /** The token recorded of a worker that is started is the one it was given, for its own step and attempt. */
  lemma TokenIsTheWorkers(c: Config, states: seq<State>, k: nat, e: Event) returns (j: nat)
    requires Behaviour(c, states) && k + 1 < |states| && Wrote(states[k], states[k + 1], e) && e.WorkerStarted?
    ensures j < k && GivenAt(c, states, j, e.step, e.attempt, e.token)
  {
    hide Behaviour, Legal, Fold, PassInv, Drive, Do, WasSubmitted, MayWrite, GivenAt;
    var a := OneWrite(c, states, k, e);
    AddsTells(c, states[k], a, e);
    StartedAs(c, Fold(states[k].track), states[k].track, states[k].claim.value, a.choice, e);
    j := TokenWasGiven(c, states, k);
  }

  lemma StartedAs(c: Config, b: Book, track: seq<Event>, p: Pass, ch: Choice, e: Event)
    requires PassInv(c, b, p) && Drive(c, track, p, ch).event == Some(e) && e.WorkerStarted? && p.pc.StartingWorker?
    ensures p.attempt.Some? && p.attempt.value.token == Some(e.token)
    ensures e.step == p.attempt.value.step.name && e.attempt == p.attempt.value.number
  {
    hide OnCall, OnWalk, OnEnd, OnOutcome, OnTeardown, OnInteracting, LiveAt, UsageAt, TeardownAt, Walks, Tally, LetGo, Keys.Instance;
  }
}
