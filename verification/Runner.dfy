/** The lifecycle runner as a protocol over one run (runner.py): what its calls read, write and decide, one
    atomic step at a time.

    The Track and the payloads outlive the host; the payloads are kept beside those of other runs, each under its
    own keys. The claim is the host's, and a crash loses it. Between any two
    of the driver's steps, cancels may land, clients may write what they ask for, and the host may stop. What
    the code does under `changed` is `locked`: no cancel is taken there. `Choice` is what the runner does not
    decide: the clock, and what the executor and the worker do, which may raise anywhere they are called. */
module Runner {
  import opened Wrappers
  import opened Budget
  import opened RunMachine
  import opened Ledger
  import opened Readers
  import Keys

  /** The calls that claim a run: submit, retry, decide, a host's start, and a cancel of a run nothing advances. */
  datatype Call =
    | Submit(op: Op, at: nat)
    | RetryRun
    | DecideRun(outcome: Decision, escalation: Option<string>, by_actor: string, findings: string)
    | HostStart
    | CancelRun(by_actor: string)

  /** `cancel()`'s own teardown of a worker it claimed. */
  datatype CancelTeardown = NotAsked | Asked | Returned(raised: bool)

  /** A call of the executor's teardown, by whom, and whether it raised. Kept to state what is proved. */
  datatype Torn = ByDriver(raised: bool) | ByCancel(raised: bool)

  datatype Outcome = Broken(error: string) | Answer(envelope: Envelope)

  datatype Attempt = Attempt(
    step: OpStep, number: nat,
    worker: bool, token: Option<string>, started: bool, answered: bool,
    usage: Option<Usage>, outcome: Outcome,
    released: bool, cancelTeardown: CancelTeardown, orderly: bool, teardownError: bool,
    torn: seq<Torn>)

  datatype End = Finished | Broke | Unaccountable | OverBudget(dimension: Dimension, step: string) | AtGate | OnlyIfCancelled

  /** Where the call that holds the claim is. */
  datatype Pc =
    | Reading | Writing | Opening | PickingUp | Preparing
    | AtStep | Approving | Resolving
    | Checking | Materializing | Recording | StartingWorker | Readying | Invoking | Interacting
    | Accounting(report: Option<Usage>)
    | Releasing | AwaitingCancel | Idling | TearingStart | TearingDown | NotingFailure | Stopping
    | Judging | Keeping | KeepWriting
    | Closing(end: End) | FailingStep | Ending(end: End) | CancellingStep | CancellingRun
    | Done

  datatype Pass = Pass(
    id: nat, call: Call, pc: Pc,
    history: seq<Event>, run: Run, op: Op,
    i: nat, completed: set<string>, retries: nat, tracker: Option<Spend>, spentOn: Option<string>, stop: Option<Dimension>,
    attempt: Option<Attempt>,
    accepting: bool, locked: bool, cancelledBy: Option<string>)

  /** `claims` numbers the claims made so far, so that two passes of a run are told apart. */
  datatype State = State(track: seq<Event>, payloads: map<string, string>, claim: Option<Pass>, claims: nat)

  const START := State([], map[], None, 0)

  /** What a worker answered: it raised, it returned no envelope, or an envelope, whose payload is JSON or not. */
  datatype Reply = Raised(error: string) | NotAnEnvelope | Returned(envelope: Envelope, json: bool, usage: RawUsage)

  datatype Choice = Choice(now: nat, raises: bool, token: Option<string>, reply: Reply)

  /** One step of the claim's holder: the event it appends, the payload it keeps, and where it is after. */
  datatype Effect = Effect(event: Option<Event>, put: Option<(string, string)>, pass: Option<Pass>)

  function Goes(p: Pass): Effect {
    Effect(None, None, Some(p))
  }

  function Writes(e: Event, p: Pass): Effect {
    Effect(Some(e), None, Some(p.(history := p.history + [e])))
  }

  /** `_record`: write a move and go on from it. A move the machine refuses raises, which ends the call. */
  function Records(m: Option<Moved>, p: Pass, pc: Pc): Effect {
    match m
    case Some(moved) => Writes(moved.record, p.(run := moved.after, pc := pc))
    case None => Goes(p.(pc := Done))
  }

  predicate WasSubmitted(track: seq<Event>) {
    exists k :: 0 <= k < |track| && track[k].OpSubmitted?
  }

  // ---- Claiming, reading, and the call's own record ---------------------------------------------

  function Claimed(id: nat, call: Call): Pass {
    Pass.Pass(id, call, Reading, [], NEW_RUN, Op([]), 0, {}, 0, None, None, None, None, false, false, None)
  }

  function OnReading(p: Pass, track: seq<Event>): Effect {
    var read := p.(history := track);
    match ReplayOf(track)
    case Refused => Goes(p.(pc := Done))
    case NeverSubmitted =>
      if p.call.Submit? && track == [] then Goes(read.(pc := Writing, op := p.call.op)) else Goes(p.(pc := Done))
    case At(run) =>
      var op := Fold(track).op;
      if op.None? then Goes(p.(pc := Done))
      else
        var known := read.(run := run, op := op.value);
        match p.call
        case Submit(submitted, _) =>
          if submitted == op.value && run.state.Submitted? then Goes(known.(pc := Opening)) else Goes(p.(pc := Done))
        case RetryRun =>
          if run.state.Failed? || run.state.Interrupted? then Goes(known.(pc := Writing)) else Goes(p.(pc := Done))
        case DecideRun(outcome, _, _, _) =>
          if run.state.WaitingAtGate? && !(outcome.Approve? && HoldsNothing(track, run))
          then Goes(known.(pc := Writing)) else Goes(p.(pc := Done))
        case HostStart =>
          if run.state.Running? || run.state.WaitingAtGate? then Goes(known.(pc := Writing)) else Goes(p.(pc := Done))
        case CancelRun(_) => Goes(known.(pc := Writing))
  }

  /** An escalation recorded before Gates holds no result to approve. */
  predicate HoldsNothing(track: seq<Event>, run: Run) {
    var escalated := Lookup(Fold(track).escalated, run.openStep.GetOr(""));
    escalated.None? || escalated.value.held.None?
  }

  function OnWriting(c: Config, p: Pass, track: seq<Event>): Effect {
    match p.call
    case Submit(op, at) =>
      // The Track refuses a second submission, which a client may have made since.
      if WasSubmitted(track) then Goes(p.(pc := Done)) else Writes(OpSubmitted(op, at), p.(pc := Opening))
    case RetryRun => Records(Retry(p.run), p, Opening)
    case DecideRun(outcome, escalation, actor, findings) =>
      var moved := Decide(p.run, outcome, escalation, actor, findings, c.reviseLimit);
      Records(moved, p, if moved.Some? && moved.value.after.state.Running? then Opening else Done)
    case HostStart => Records(HostStopped(p.run), p, Done)
    case CancelRun(actor) => Records(Cancel(p.run, actor), p, Done)
  }

  // ---- Advancing --------------------------------------------------------------------------------

  function OnOpening(p: Pass): Effect {
    match ReplayOf(p.history)
    case At(run) => Goes(p.(run := run, accepting := true, pc := if run.state.Submitted? then PickingUp else Preparing))
    case _ => Goes(p.(pc := Done))
  }

  function OnPreparing(c: Config, p: Pass): Effect {
    var read := p.(completed := (set s | s in Fold(p.history).completed), retries := Fold(p.history).retries, i := 0);
    if c.budget.None? then Goes(read.(pc := AtStep))
    else
      match Rebuilt(c.budget, p.history)
      case None => Goes(read.(pc := Closing(Unaccountable)))
      case Some(spent) => Goes(read.(tracker := Some(spent), pc := AtStep))
  }

  function Check(c: Config, p: Pass, now: nat): Option<Dimension> {
    if c.budget.None? || p.tracker.None? then None
    else Exceeded(c.budget.value, Fold(p.history).startedAt, p.tracker.value, now)
  }

  function OnAtStep(c: Config, p: Pass, ch: Choice): Effect {
    if p.i >= |p.op.steps| then
      // The end of a run is a boundary too, for a call that reached a step.
      var over := Check(c, p, ch.now);
      if p.spentOn.Some? && over.Some? then Goes(p.(pc := Closing(OverBudget(over.value, p.spentOn.value))))
      else Goes(p.(pc := Closing(Finished)))
    else
      var name := p.op.steps[p.i].name;
      if name in p.completed then Goes(p.(i := p.i + 1))
      else if p.cancelledBy.Some? then Goes(p.(pc := Closing(OnlyIfCancelled)))
      else
        var on := p.(spentOn := Some(name));
        if name in Fold(p.history).approved then Goes(on.(pc := Approving))
        else
          match Check(c, p, ch.now)
          case Some(dimension) => Goes(on.(pc := Closing(OverBudget(dimension, name))))
          case None => Goes(on.(pc := Resolving))
  }

  /** `_keep(complete_approved)`: one write, under the condition. */
  function OnApproving(p: Pass): Effect {
    var name := if p.i < |p.op.steps| then p.op.steps[p.i].name else "";
    match Lookup(Fold(p.history).approved, name)
    case None => Goes(p.(pc := Done))
    case Some(approved) =>
      if p.cancelledBy.Some? then EntersCancel(p)
      else if approved.held.None? then Goes(p.(pc := Done))
      else
        var held := approved.held.value;
        Writes(StepCompleted(name, held.attempt, held.usage, held.result, Some(approved.id)), p.(i := p.i + 1, pc := AtStep))
  }

  function OnResolving(p: Pass): Effect {
    if p.i >= |p.op.steps| then Goes(p.(pc := Done))
    else
      var step := p.op.steps[p.i];
      var number := p.run.Escalations(step.name) + p.retries;
      var attempt := Attempt(step, number, false, None, false, false, None, Broken("Unknown"), false, NotAsked, false, false, []);
      Writes(StepStarted(step.name, number), p.(attempt := Some(attempt), pc := Checking))
  }

  // ---- The attempt ------------------------------------------------------------------------------

  function With(p: Pass, a: Attempt, pc: Pc): Pass {
    p.(attempt := Some(a), pc := pc)
  }

  function OnChecking(p: Pass, a: Attempt): Effect {
    if p.cancelledBy.Some? then Goes(With(p, a.(outcome := Broken("_Cancelled")), Judging))
    else Goes(p.(pc := Materializing))
  }

  function OnMaterializing(p: Pass, a: Attempt, ch: Choice): Effect {
    if ch.raises then Goes(With(p, a.(outcome := Broken("Exception")), Judging))
    else Goes(With(p, a.(worker := true, token := ch.token), Recording))
  }

  function OnRecording(p: Pass, a: Attempt): Effect {
    Writes(WorkerFact(a.step.name, Materialized), p.(pc := if a.token.Some? then StartingWorker else Readying))
  }

  function OnStartingWorker(p: Pass, a: Attempt): Effect {
    Writes(WorkerStarted(a.step.name, a.number, Keys.Instance(a.step.name, a.number), a.token.GetOr("")),
           With(p, a.(started := true), Readying))
  }

  function OnReadying(p: Pass, a: Attempt): Effect {
    Writes(WorkerFact(a.step.name, Ready), p.(pc := Invoking))
  }

  /** A cancel taken before the worker is invoked stops the attempt there, with nothing spent. */
  function OnInvoking(p: Pass, a: Attempt): Effect {
    if p.cancelledBy.Some? then Goes(With(p, a.(outcome := Broken("_Cancelled")), Releasing))
    else Writes(WorkerFact(a.step.name, InteractionStarted), p.(pc := Interacting))
  }

  /** `interact` and `read_envelope`: every way an interaction ends records one report of what it spent. */
  function OnInteracting(c: Config, p: Pass, a: Attempt, ch: Choice): Effect {
    match ch.reply
    case Raised(error) => Goes(With(p, a.(outcome := Broken(error)), Accounting(None)))
    case NotAnEnvelope => Goes(With(p, a.(outcome := Broken("EnvelopeInvalid")), Accounting(None)))
    case Returned(envelope, json, raw) =>
      var unreadable := envelope.ok && !json;
      match ValidateUsage(raw, c.budget)
      case Err(_) =>
        Goes(With(p, a.(answered := !unreadable, outcome := Broken("UsageUnavailable")), Accounting(None)))
      case Ok(usage) =>
        var outcome := if unreadable then Broken("EnvelopeInvalid") else Answer(envelope);
        Goes(With(p, a.(answered := !unreadable, usage := usage, outcome := outcome), Accounting(usage)))
  }

  function OnAccounting(p: Pass, a: Attempt, report: Option<Usage>): Effect {
    Writes(InteractionUsage(a.step.name, a.number, report), p.(pc := Releasing))
  }

  // ---- Tearing the worker down ------------------------------------------------------------------

  /** The teardown step claims the worker under the lock, unless a cancel claimed it first. */
  function OnReleasing(p: Pass, a: Attempt): Effect {
    if a.released then Goes(p.(pc := AwaitingCancel))
    else Goes(With(p, a.(released := true, orderly := a.answered), if a.answered then Idling else TearingDown))
  }

  function OnAwaitingCancel(p: Pass, a: Attempt): Effect {
    if a.cancelTeardown == CancelTeardown.Returned(false) then Goes(p.(pc := if a.started then Stopping else Judging))
    else Goes(p.(pc := TearingDown))
  }

  function OnIdling(p: Pass, a: Attempt): Effect {
    Writes(WorkerFact(a.step.name, Idle), p.(pc := TearingStart))
  }

  function OnTearingStart(p: Pass, a: Attempt): Effect {
    Writes(WorkerFact(a.step.name, TeardownStarted), p.(pc := TearingDown))
  }

  function OnTearingDown(p: Pass, a: Attempt, ch: Choice): Effect {
    var after := a.(torn := a.torn + [ByDriver(ch.raises)], teardownError := ch.raises);
    Goes(With(p, after,
              if ch.raises then (if a.orderly then NotingFailure else Judging)
              else if a.started then Stopping else Judging))
  }

  function OnNotingFailure(p: Pass, a: Attempt): Effect {
    Writes(WorkerFact(a.step.name, TeardownFailed), p.(pc := Judging))
  }

  function OnStopping(p: Pass, a: Attempt): Effect {
    Writes(WorkerStopped(a.step.name, a.number, Keys.Instance(a.step.name, a.number)), p.(pc := Judging))
  }

  // ---- What becomes of the attempt --------------------------------------------------------------

  predicate Succeeded(a: Attempt) {
    !a.teardownError && a.outcome.Answer? && a.outcome.envelope.ok
  }

  function OnJudging(c: Config, p: Pass, a: Attempt, ch: Choice): Effect {
    if p.cancelledBy.Some? then Goes(p.(pc := Closing(OnlyIfCancelled)))
    else if !Succeeded(a) then Goes(p.(pc := Closing(Broke)))
    else
      var spent := if p.tracker.Some? then p.(tracker := Some(Add(p.tracker.value, a.usage))) else p;
      var counted := spent.(stop := Check(c, spent, ch.now));
      if Evaluate(a.step.gate, a.outcome.envelope.problems).Escalate? then Goes(counted.(pc := Closing(AtGate)))
      else Goes(counted.(pc := Keeping))
  }

  /** `_result`: a payload above the threshold is kept under the attempt's key. */
  function KeptAs(c: Config, a: Attempt, payload: string): Kept {
    if |payload| > c.inlineMax then ByRef(Keys.Key(c.run, a.step.name, a.number)) else Inline(payload)
  }

  function PutFor(c: Config, a: Attempt, payload: string): Option<(string, string)> {
    if |payload| > c.inlineMax then Some((Keys.Key(c.run, a.step.name, a.number), payload)) else None
  }

  function OnKeeping(c: Config, p: Pass, a: Attempt): Effect {
    if p.cancelledBy.Some? then EntersCancel(p)
    else if a.outcome.Broken? then Goes(p.(pc := Done))
    else Effect(None, PutFor(c, a, a.outcome.envelope.payload), Some(p.(locked := true, pc := KeepWriting)))
  }

  function OnKeepWriting(c: Config, p: Pass, a: Attempt): Effect {
    if a.outcome.Broken? then Goes(p.(pc := Done))
    else
      var after := p.(i := p.i + 1, locked := false,
                      pc := if p.stop.Some? then Closing(OverBudget(p.stop.value, a.step.name)) else AtStep);
      Writes(StepCompleted(a.step.name, a.number, a.usage, KeptAs(c, a, a.outcome.envelope.payload), None), after)
  }

  // ---- The run's end ----------------------------------------------------------------------------

  /** Under the condition, a cancel taken first ends the run. */
  function EntersCancel(p: Pass): Effect {
    Goes(p.(locked := true, pc := if p.attempt.Some? && p.attempt.value.teardownError then CancellingStep else CancellingRun))
  }

  function OnClosing(c: Config, p: Pass, end: End): Effect {
    if p.cancelledBy.Some? then EntersCancel(p)
    else
      match end
      case Broke => Goes(p.(locked := true, pc := FailingStep))
      case AtGate =>
        if p.attempt.None? || p.attempt.value.outcome.Broken? then Goes(p.(pc := Done))
        else Effect(None, PutFor(c, p.attempt.value, p.attempt.value.outcome.envelope.payload),
                    Some(p.(locked := true, pc := Ending(AtGate))))
      case OnlyIfCancelled => Goes(p.(pc := Done))
      case _ => Goes(p.(locked := true, pc := Ending(end)))
  }

  /** The step's own failure, when it had one; otherwise the teardown's. */
  function OwnError(a: Attempt): string {
    match a.outcome
    case Broken(error) => error
    case Answer(envelope) => if envelope.ok then "TeardownFailed" else envelope.code
  }

  function OnFailingStep(c: Config, p: Pass, a: Attempt): Effect {
    Writes(StepFailed(a.step.name, a.number, Keys.Key(c.run, a.step.name, a.number), OwnError(a), a.teardownError),
           p.(pc := Ending(Broke)))
  }

  function EndMove(c: Config, p: Pass, end: End): Option<Moved> {
    match end
    case Finished => Complete(p.run)
    case Broke =>
      if p.attempt.None? then None
      else
        var a := p.attempt.value;
        Fail(p.run, Some(a.step.name), if a.teardownError then "TeardownFailed" else OwnError(a))
    case Unaccountable => Fail(p.run, None, "UsageUnavailable")
    case OverBudget(dimension, step) => ExhaustBudget(p.run, dimension, Some(step))
    case AtGate =>
      if p.attempt.None? || p.attempt.value.outcome.Broken? then None
      else
        var a := p.attempt.value;
        var payload := a.outcome.envelope.payload;
        EscalateAt(p.run, a.step.name, Some(EscalationId(c, a.step.name, a.number)),
                   Some(Held(a.number, a.usage, KeptAs(c, a, payload), payload)))
    case OnlyIfCancelled => None
  }

  function OnEnding(c: Config, p: Pass, end: End): Effect {
    Records(EndMove(c, p, end), p.(accepting := false, locked := false), Done)
  }

  function OnCancellingStep(c: Config, p: Pass, a: Attempt): Effect {
    Writes(StepFailed(a.step.name, a.number, Keys.Key(c.run, a.step.name, a.number), "TeardownFailed", true),
           p.(pc := CancellingRun))
  }

  function OnCancellingRun(p: Pass): Effect {
    Records(Cancel(p.run, p.cancelledBy.GetOr("")), p.(accepting := false, locked := false), Done)
  }

  // ---- The protocol -----------------------------------------------------------------------------

  function OnCall(c: Config, track: seq<Event>, p: Pass): Effect {
    match p.pc
    case Reading => OnReading(p, track)
    case Writing => OnWriting(c, p, track)
    case Opening => OnOpening(p)
    case PickingUp => Records(Pickup(p.run), p, Preparing)
    case Preparing => OnPreparing(c, p)
    case _ => Goes(p)
  }

  function OnWalk(c: Config, p: Pass, ch: Choice): Effect {
    match p.pc
    case AtStep => OnAtStep(c, p, ch)
    case Approving => OnApproving(p)
    case Resolving => OnResolving(p)
    case _ => Goes(p)
  }

  function OnWorker(c: Config, p: Pass, a: Attempt, ch: Choice): Effect {
    match p.pc
    case Checking => OnChecking(p, a)
    case Materializing => OnMaterializing(p, a, ch)
    case Recording => OnRecording(p, a)
    case StartingWorker => OnStartingWorker(p, a)
    case Readying => OnReadying(p, a)
    case Invoking => OnInvoking(p, a)
    case Interacting => OnInteracting(c, p, a, ch)
    case Accounting(report) => OnAccounting(p, a, report)
    case _ => Goes(p)
  }

  function OnTeardown(p: Pass, a: Attempt, ch: Choice): Effect {
    match p.pc
    case Releasing => OnReleasing(p, a)
    case AwaitingCancel => OnAwaitingCancel(p, a)
    case Idling => OnIdling(p, a)
    case TearingStart => OnTearingStart(p, a)
    case TearingDown => OnTearingDown(p, a, ch)
    case NotingFailure => OnNotingFailure(p, a)
    case Stopping => OnStopping(p, a)
    case _ => Goes(p)
  }

  function OnOutcome(c: Config, p: Pass, a: Attempt, ch: Choice): Effect {
    match p.pc
    case Judging => OnJudging(c, p, a, ch)
    case Keeping => OnKeeping(c, p, a)
    case KeepWriting => OnKeepWriting(c, p, a)
    case FailingStep => OnFailingStep(c, p, a)
    case CancellingStep => OnCancellingStep(c, p, a)
    case _ => Goes(p)
  }

  function OnEnd(c: Config, p: Pass): Effect {
    match p.pc
    case Closing(end) => OnClosing(c, p, end)
    case Ending(end) => OnEnding(c, p, end)
    case CancellingRun => OnCancellingRun(p)
    case _ => Goes(p)
  }

  predicate LettingGo(pc: Pc) {
    pc.Releasing? || pc.AwaitingCancel? || pc.Idling? || pc.TearingStart? || pc.TearingDown? || pc.NotingFailure? || pc.Stopping?
  }

  predicate Deciding(pc: Pc) {
    pc.Judging? || pc.Keeping? || pc.KeepWriting? || pc.FailingStep? || pc.CancellingStep?
  }

  /** The next step of the call that holds the claim. */
  function Drive(c: Config, track: seq<Event>, p: Pass, ch: Choice): Effect {
    match p.pc
    case Reading | Writing | Opening | PickingUp | Preparing => OnCall(c, track, p)
    case AtStep | Approving | Resolving => OnWalk(c, p, ch)
    case Closing(_) | Ending(_) | CancellingRun => OnEnd(c, p)
    case Done => Effect(None, None, None)
    case _ =>
      if p.attempt.None? then Goes(p.(pc := Done))
      else if LettingGo(p.pc) then OnTeardown(p, p.attempt.value, ch)
      else if Deciding(p.pc) then OnOutcome(c, p, p.attempt.value, ch)
      else OnWorker(c, p, p.attempt.value, ch)
  }

  datatype Action =
    | Acquire(call: Call)
    | Advance(choice: Choice)
    | AcceptCancel(who: string)
    | CancelTeardownReturns(raised: bool)
    | Crash
    | ClientSubmits(op: Op, at: nat)
    | ClientWrites(intent: Event)
    | OtherRunKeeps(run: string, step: string, number: nat, payload: string)

  /** What a client may append: each is written only if its condition holds of the Track it joins. */
  predicate MayWrite(track: seq<Event>, e: Event) {
    && IsIntent(e)
    && ReplayOf(track).At?
    && (e.CancelRequested? ==> !ReplayOf(track).run.state.Ended() && CancelRequestOf(track).None?)
    && (e.TurnRequested? ==> !ReplayOf(track).run.state.Ended() && !ReplayOf(track).run.state.WaitingAtGate?)
  }

  ghost predicate Enabled(c: Config, s: State, a: Action) {
    match a
    case Acquire(call) =>
      && s.claim.None?
      && (call.Submit? ==> Distinct(call.op))
      && (call.DecideRun? ==> call.by_actor != "")
      && (call.CancelRun? ==> call.by_actor != "")
    case Advance(_) =>
      s.claim.Some? && (s.claim.value.pc.AwaitingCancel? && s.claim.value.attempt.Some? ==> s.claim.value.attempt.value.cancelTeardown.Returned?)
    case AcceptCancel(actor) => s.claim.Some? && s.claim.value.accepting && !s.claim.value.locked && actor != ""
    case CancelTeardownReturns(_) =>
      s.claim.Some? && s.claim.value.attempt.Some? && s.claim.value.attempt.value.cancelTeardown.Asked?
    case Crash => true
    case ClientSubmits(_, _) => !WasSubmitted(s.track)
    case ClientWrites(e) => MayWrite(s.track, e)
    case OtherRunKeeps(run, _, _, _) => run != c.run
  }

  /** `cancel()` of a run being advanced: recorded against the claim, the live worker claimed if nobody has. */
  function Accepts(p: Pass, actor: string): Pass {
    var asked := p.(cancelledBy := if p.cancelledBy.Some? then p.cancelledBy else Some(actor));
    if p.attempt.Some? && p.attempt.value.worker && !p.attempt.value.released then
      asked.(attempt := Some(p.attempt.value.(released := true, cancelTeardown := Asked)))
    else asked
  }

  function CancelReturns(p: Pass, raised: bool): Pass {
    if p.attempt.None? then p
    else
      var a := p.attempt.value;
      p.(attempt := Some(a.(cancelTeardown := CancelTeardown.Returned(raised), torn := a.torn + [ByCancel(raised)])))
  }

  function Took(s: State, f: Effect): State {
    State(if f.event.Some? then s.track + [f.event.value] else s.track,
          if f.put.Some? then s.payloads[f.put.value.0 := f.put.value.1] else s.payloads,
          f.pass, s.claims)
  }

  /** The state after an action that is enabled. */
  function Do(c: Config, s: State, a: Action): State {
    match a
    case Acquire(call) => s.(claim := Some(Claimed(s.claims, call)), claims := s.claims + 1)
    case Advance(choice) => if s.claim.None? then s else Took(s, Drive(c, s.track, s.claim.value, choice))
    case AcceptCancel(actor) => if s.claim.None? then s else s.(claim := Some(Accepts(s.claim.value, actor)))
    case CancelTeardownReturns(raised) => if s.claim.None? then s else s.(claim := Some(CancelReturns(s.claim.value, raised)))
    case Crash => s.(claim := None)
    case ClientSubmits(op, at) => s.(track := s.track + [OpSubmitted(op, at)])
    case ClientWrites(e) => s.(track := s.track + [e])
    case OtherRunKeeps(run, step, number, payload) => s.(payloads := s.payloads[Keys.Key(run, step, number) := payload])
  }

  ghost predicate Step(c: Config, s: State, s': State) {
    exists a :: Enabled(c, s, a) && s' == Do(c, s, a)
  }

  ghost predicate StepAt(c: Config, states: seq<State>, k: nat) {
    k + 1 < |states| ==> Step(c, states[k], states[k + 1])
  }

  /** A behaviour: any interleaving, with a crash wherever one lands. */
  ghost predicate Behaviour(c: Config, states: seq<State>) {
    && |states| > 0 && states[0] == START
    && (forall k: nat :: StepAt(c, states, k))
  }
}
