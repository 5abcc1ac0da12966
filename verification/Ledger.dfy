/** What a Track says, folded once, and which event may come next.

    `Fold` gathers what the runner reads of a Track: the run, the completed steps, the attempt in flight,
    the escalations and approvals, the reports. `Legal` is the discipline the runner keeps: every event was
    allowed by the ledger of the events before it. Runner.dfy proves that every interleaving of its calls,
    and every crash, leaves a legal Track; TrackLaws.dfy proves what a legal Track never shows. */
module Ledger {
  import opened Wrappers
  import opened Budget
  import opened RunMachine
  import Keys

  /** A runner's settings, and the run it moves. */
  datatype Config = Config(run: string, budget: Option<RunBudget>, reviseLimit: Option<nat>, inlineMax: nat)

  datatype Live = Live(instance: string, token: string)

  /** The attempt a run has in flight. `failed` is its `step_failed`, and whether that names a leaked worker. */
  datatype Flight = Flight(step: string, number: nat, live: Option<Live>, usage: Option<Option<Usage>>,
                           failed: Option<bool>)

  datatype Escalated = Escalated(id: Option<string>, held: Option<Held>)

  datatype Book = Book(
    replayed: Replayed,
    op: Option<Op>,
    startedAt: nat,
    completed: seq<string>,
    retries: nat,
    escalated: map<string, Escalated>,
    approved: map<string, Escalated>,
    signals: map<string, string>,
    accounted: set<string>,
    reports: seq<Option<Usage>>,
    flight: Option<Flight>)

  const BLANK := Book(NeverSubmitted, None, 0, [], 0, map[], map[], map[], {}, [], None)

  function Post(b: Book, e: Event): Book {
    var c := b.(replayed := ReplayOne(false, b.replayed, e));
    match e
    case OpSubmitted(op, at) => if b.op.None? then c.(op := Some(op), startedAt := at) else c
    case StepStarted(step, n) => c.(flight := Some(Flight(step, n, None, None, None)))
    case WorkerStarted(_, _, instance, token) =>
      if b.flight.Some? then c.(flight := Some(b.flight.value.(live := Some(Live(instance, token))))) else c
    case WorkerStopped(_, _, _) =>
      if b.flight.Some? then c.(flight := Some(b.flight.value.(live := None))) else c
    case InteractionUsage(step, _, usage) =>
      var d := c.(reports := b.reports + [usage], accounted := b.accounted + {step});
      if b.flight.Some? then d.(flight := Some(b.flight.value.(usage := Some(usage)))) else d
    case StepFailed(_, _, _, _, leaked) =>
      if b.flight.Some? then c.(flight := Some(b.flight.value.(failed := Some(leaked)))) else c
    case StepCompleted(step, _, _, _, _) =>
      c.(completed := b.completed + [step], approved := b.approved - {step}, flight := None)
    case GateEscalated(step, id, held) =>
      c.(escalated := b.escalated[step := Escalated(id, held)], approved := b.approved - {step}, flight := None)
    case GateDecided(Some(step), outcome, _, _, value) =>
      var d := if outcome.SendBack? then c.(signals := b.signals[step := value]) else c;
      if outcome.Approve? && step in b.escalated && b.escalated[step].held.Some?
      then d.(approved := b.approved[step := b.escalated[step]])
      else d.(approved := b.approved - {step})
    case RetryRequested(_, kind) => c.(retries := b.retries + (if kind.New? then 1 else 0))
    case RunCompleted => c.(flight := None)
    case RunFailed(_, _, _) => c.(flight := None)
    case BudgetStopped(_, _) => c.(flight := None)
    case RunCancelled(_) => c.(flight := None)
    case RunInterrupted => c.(flight := None)
    case _ => c
  }

  function Fold(events: seq<Event>): Book {
    if events == [] then BLANK else Post(Fold(events[..|events| - 1]), events[|events| - 1])
  }

  lemma FoldSnoc(events: seq<Event>, e: Event)
    ensures Fold(events + [e]) == Post(Fold(events), e)
  {
    assert (events + [e])[..|events|] == events;
  }

  /** `cancel_request`: who asked for the run to be cancelled, as it stands; a retry outlives a request. */
  function CancelRequestOf(events: seq<Event>): Option<string> {
    if events == [] then None
    else
      var before := CancelRequestOf(events[..|events| - 1]);
      match events[|events| - 1]
      case CancelRequested(actor) => if before.Some? then before else Some(actor)
      case RetryRequested(_, _) => None
      case _ => before
  }

  lemma CancelRequestSnoc(events: seq<Event>, e: Event)
    ensures CancelRequestOf(events + [e])
         == match e
            case CancelRequested(actor) => if CancelRequestOf(events).Some? then CancelRequestOf(events) else Some(actor)
            case RetryRequested(_, _) => None
            case _ => CancelRequestOf(events)
  {
    assert (events + [e])[..|events|] == events;
  }

  // ---- What may come next -----------------------------------------------------------------------

  predicate InState(b: Book, state: RunState) {
    b.replayed.At? && b.replayed.run.state == state
  }

  predicate Open(b: Book) {
    b.replayed.At? && !b.replayed.run.state.Ended()
  }

  /** The step a run goes on with: the first of its Op not completed. */
  predicate IsNext(b: Book, step: string) {
    b.op.Some? && |b.completed| < |b.op.value.steps| && b.op.value.steps[|b.completed|].name == step
  }

  /** The number an attempt of a step starts with: its escalations, and the retries that opened a new attempt. */
  function Number(b: Book, step: string): nat {
    (if b.replayed.At? then b.replayed.run.Escalations(step) else 0) + b.retries
  }

  predicate InFlight(b: Book, step: string, number: nat) {
    b.flight.Some? && b.flight.value.step == step && b.flight.value.number == number && InState(b, Running)
  }

  /** Every report is known where a limit needs it, and the spending is strictly within the limits. */
  predicate Affordable(c: Config, reports: seq<Option<Usage>>) {
    c.budget.Some? ==>
      && Tally(c.budget, reports).Some?
      && Within(c.budget.value, Tally(c.budget, reports).value)
  }

  /** The id of an escalation: a function of the run, the step and the attempt, distinct for distinct ones. */
  function EscalationId(c: Config, step: string, attempt: nat): string {
    Keys.Key(c.run, step, attempt)
  }

  predicate KeptUnder(c: Config, step: string, attempt: nat, result: Kept) {
    result.ByRef? ==> result.key == Keys.Key(c.run, step, attempt)
  }

  /** Whether the attempt in flight has an accounted answer, a worker that is gone, and no failure. */
  predicate Answered(c: Config, b: Book, step: string, attempt: nat, usage: Option<Usage>) {
    && InFlight(b, step, attempt)
    && b.flight.value.live.None?
    && b.flight.value.failed.None?
    && b.flight.value.usage == Some(usage)
    && Accountable(c.budget, usage)
  }

  ghost predicate Allowed(c: Config, b: Book, asked: Option<string>, e: Event) {
    && !ReplayOne(false, b.replayed, e).Refused?
    && match e
       case OpSubmitted(_, _) => b.replayed.NeverSubmitted?
       case RunPickedUp => b.op.Some? && Distinct(b.op.value)
       case StepStarted(step, n) =>
         && InState(b, Running) && IsNext(b, step) && n == Number(b, step)
         && step !in b.approved && b.flight.None? && Affordable(c, b.reports)
       case WorkerFact(_, _) => b.flight.Some?
       case WorkerStarted(step, n, instance, _) =>
         InFlight(b, step, n) && b.flight.value.live.None? && b.flight.value.usage.None?
         && instance == Keys.Instance(step, n)
       case WorkerStopped(step, n, instance) =>
         InFlight(b, step, n) && b.flight.value.live.Some? && b.flight.value.live.value.instance == instance
       case InteractionUsage(step, n, _) => InFlight(b, step, n) && b.flight.value.usage.None?
       case StepFailed(step, n, key, _, _) =>
         InFlight(b, step, n) && b.flight.value.failed.None? && key == Keys.Key(c.run, step, n)
       case StepCompleted(step, n, usage, result, answers) =>
         && InState(b, Running) && IsNext(b, step)
         && (match answers
            case None => Answered(c, b, step, n, usage) && KeptUnder(c, step, n, result)
            case Some(id) =>
              && b.flight.None? && step in b.approved && b.approved[step].id == id
              && b.approved[step].held.Some?
              && b.approved[step].held.value == Held(n, usage, result, b.approved[step].held.value.shown))
       case GateEscalated(step, id, held) =>
         && held.Some? && Answered(c, b, step, held.value.attempt, held.value.usage)
         && KeptUnder(c, step, held.value.attempt, held.value.result)
         && (held.value.result.Inline? ==> held.value.result.payload == held.value.shown)
         && id == Some(EscalationId(c, step, held.value.attempt))
       case GateDecided(step, outcome, _, _, _) =>
         && b.replayed.At? && step == b.replayed.run.openStep
         && (outcome.SendBack? && c.reviseLimit.Some? ==> b.replayed.run.Escalations(step.GetOr("")) <= c.reviseLimit.value)
       case RunCompleted => b.flight.None? && b.op.Some? && |b.completed| == |b.op.value.steps|
       case RunFailed(_, _, revision) =>
         if revision.None? then InState(b, Running) && (b.flight.Some? ==> b.flight.value.failed.Some?)
         else InState(b, WaitingAtGate)
       case BudgetStopped(_, _) => b.flight.None?
       case RunCancelled(_) => true
       case RunInterrupted => true
       case RetryRequested(from, kind) => from.Failed? || from.Interrupted?
       case CancelRequested(_) => Open(b) && asked.None?
       case TurnRequested(_, _) => InState(b, Submitted) || InState(b, Running)
       case TurnAnswered(_, _) => b.replayed.At?
       case TurnFailed(_, _) => b.replayed.At?
  }

  ghost predicate LegalAt(c: Config, track: seq<Event>, k: nat) {
    k < |track| ==> Allowed(c, Fold(track[..k]), CancelRequestOf(track[..k]), track[k])
  }

  /** Every event was allowed by what came before it. */
  ghost predicate Legal(c: Config, track: seq<Event>) {
    forall k: nat :: LegalAt(c, track, k)
  }
}
