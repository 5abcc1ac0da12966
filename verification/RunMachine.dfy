/** The run machine and the events of a run's Track (states/run.py, states/_machine.py, gates.py).

    A move is pure: it gives the run after it and the record that reports it. A run's state is never
    stored; it is the machine folded over the Track, every record going through the move that wrote it. */
module RunMachine {
  import opened Wrappers
  import opened Budget

  // ---- Ops, Gates and what a worker answers -----------------------------------------------------

  datatype Severity = Error | Warn

  /** What a Gate escalates, from nothing to every result. */
  datatype Policy = Never | OnError | OnWarn | Always

  datatype GateOutcome = Pass | PassWithProblems | Escalate

  /** `spec` stands for the fields the engine only carries: cog, entry point, input, digest, approvers. */
  datatype OpStep = OpStep(name: string, gate: Policy, spec: string)

  datatype Op = Op(steps: seq<OpStep>)

  function Names(op: Op): (names: seq<string>)
    ensures |names| == |op.steps|
    ensures forall k :: 0 <= k < |names| ==> names[k] == op.steps[k].name
  {
    seq(|op.steps|, k requires 0 <= k < |op.steps| => op.steps[k].name)
  }

  ghost predicate Distinct(op: Op) {
    forall j, k :: 0 <= j < k < |op.steps| ==> op.steps[j].name != op.steps[k].name
  }

  /** An envelope: `payload` is its JSON rendering, `code` the error code of one that is not ok. */
  datatype Envelope = Envelope(ok: bool, payload: string, problems: seq<Severity>, code: string)

  /** Whether a Gate asks a person about a result with these problems, said policy by policy. */
  predicate AsksAPerson(gate: Policy, problems: seq<Severity>) {
    match gate
    case Never => false
    case OnError => exists i :: 0 <= i < |problems| && problems[i] == Error
    case OnWarn => |problems| > 0
    case Always => true
  }

  lemma EvaluateAsks(gate: Policy, problems: seq<Severity>)
    ensures Evaluate(gate, problems).Escalate? <==> AsksAPerson(gate, problems)
    ensures Evaluate(gate, problems).Pass? ==> problems == []
    ensures Evaluate(gate, problems).PassWithProblems? ==> problems != []
  {
  }

  /** From the laxest to the strictest, as they are declared. */
  function Strictness(gate: Policy): nat {
    match gate
    case Never => 0
    case OnError => 1
    case OnWarn => 2
    case Always => 3
  }

  /** A stricter Gate escalates whatever a laxer one does. */
  lemma StricterAsksToo(lax: Policy, strict: Policy, problems: seq<Severity>)
    requires Strictness(lax) <= Strictness(strict) && Evaluate(lax, problems).Escalate?
    ensures Evaluate(strict, problems).Escalate?
  {
    EvaluateAsks(lax, problems);
    EvaluateAsks(strict, problems);
    hide Evaluate;
  }

  /** `Gate.evaluate`. */
  function Evaluate(gate: Policy, problems: seq<Severity>): GateOutcome {
    if gate.Always? || (gate.OnError? && Error in problems) || (gate.OnWarn? && problems != []) then Escalate
    else if problems != [] then PassWithProblems
    else Pass
  }

  // ---- The Track's events -----------------------------------------------------------------------

  /** A result as an event carries it: inline, or the reference it is kept under. */
  datatype Kept = Inline(payload: string) | ByRef(key: string)

  /** What an approver decides on. `shown` identifies the payload: the payload itself, or its digest,
      which is taken as injective and so modelled as the payload. */
  datatype Held = Held(attempt: nat, usage: Option<Usage>, result: Kept, shown: string)

  datatype Decision = Approve | SendBack | Reject

  datatype AttemptKind = New | Same

  /** Worker facts that carry nothing the engine reads again. */
  datatype Fact = Materialized | Ready | InteractionStarted | Idle | TeardownStarted | TeardownFailed

  /** What a `failed` record adds when a send back passed the revision limit. */
  datatype Revision = Revision(limit: nat, escalation: Option<string>, value: string)

  datatype Event =
    | OpSubmitted(op: Op, at: nat)
    | RunPickedUp
    | StepStarted(step: string, attempt: nat)
    | WorkerFact(worker: string, fact: Fact)
    | WorkerStarted(step: string, attempt: nat, instance: string, token: string)
    | WorkerStopped(step: string, attempt: nat, instance: string)
    | InteractionUsage(step: string, attempt: nat, usage: Option<Usage>)
    | StepCompleted(step: string, attempt: nat, usage: Option<Usage>, result: Kept, answers: Option<Option<string>>)
    | StepFailed(step: string, attempt: nat, key: string, error: string, leaked: bool)
    | GateEscalated(step: string, escalation: Option<string>, held: Option<Held>)
    | GateDecided(decided: Option<string>, outcome: Decision, escalation: Option<string>, actor: string, value: string)
    | RunCompleted
    | RunFailed(at_step: Option<string>, error: string, revision: Option<Revision>)
    | BudgetStopped(dimension: Dimension, at_step: Option<string>)
    | RunCancelled(actor: string)
    | RunInterrupted
    | RetryRequested(from_status: RunState, kind: AttemptKind)
    | CancelRequested(actor: string)
    | TurnRequested(turn: string, text: string)
    | TurnAnswered(turn: string, text: string)
    | TurnFailed(turn: string, error: string)

  // ---- The machine ------------------------------------------------------------------------------

  datatype RunState =
    | Submitted | Running | WaitingAtGate
    | Completed | Failed | Rejected | Cancelled | BudgetExceeded | Interrupted
  {
    /** Not advancing: finished, or waiting for a retry. */
    predicate Ended() {
      !Submitted? && !Running? && !WaitingAtGate?
    }
  }

  datatype Run = Run(state: RunState, openStep: Option<string>, openEscalation: Option<string>,
                     escalations: map<string, nat>)
  {
    function Escalations(step: string): nat {
      if step in escalations then escalations[step] else 0
    }
  }

  const NEW_RUN := Run(Submitted, None, None, map[])

  const REVISE_LIMIT_EXCEEDED := "revise_limit_exceeded"

  /** A run move: the run after it, and the record of it. `None` is an event the state refuses. */
  datatype Moved = Moved(after: Run, record: Event)

  function Pickup(run: Run): Option<Moved> {
    if run.state.Submitted? then Some(Moved(run.(state := Running), RunPickedUp)) else None
  }

  function EscalateAt(run: Run, step: string, escalation: Option<string>, held: Option<Held>): Option<Moved> {
    if run.state.Running? then
      Some(Moved(run.(state := WaitingAtGate, openStep := Some(step), openEscalation := escalation,
                      escalations := run.escalations[step := run.Escalations(step) + 1]),
                 GateEscalated(step, escalation, held)))
    else None
  }

  function Decide(run: Run, outcome: Decision, escalation: Option<string>, actor: string, value: string,
                  reviseLimit: Option<nat>): Option<Moved>
  {
    if !run.state.WaitingAtGate? || escalation != run.openEscalation then None
    else
      var closed := run.(openStep := None, openEscalation := None);
      var record := GateDecided(run.openStep, outcome, escalation, actor, value);
      if outcome.Reject? then Some(Moved(closed.(state := Rejected), record))
      else if outcome.SendBack? && reviseLimit.Some? && run.Escalations(run.openStep.GetOr("")) > reviseLimit.value then
        Some(Moved(closed.(state := Failed),
                   RunFailed(run.openStep, REVISE_LIMIT_EXCEEDED, Some(Revision(reviseLimit.value, escalation, value)))))
      else Some(Moved(closed.(state := Running), record))
  }

  function Complete(run: Run): Option<Moved> {
    if run.state.Running? then Some(Moved(run.(state := Completed), RunCompleted)) else None
  }

  function Fail(run: Run, step: Option<string>, error: string): Option<Moved> {
    if run.state.Running? then Some(Moved(run.(state := Failed), RunFailed(step, error, None))) else None
  }

  function ExhaustBudget(run: Run, dimension: Dimension, step: Option<string>): Option<Moved> {
    if run.state.Running? then Some(Moved(run.(state := BudgetExceeded), BudgetStopped(dimension, step))) else None
  }

  function Cancel(run: Run, actor: string): Option<Moved> {
    if run.state.Ended() || actor == "" then None
    else Some(Moved(run.(state := Cancelled, openStep := None, openEscalation := None), RunCancelled(actor)))
  }

  /** Under a backend that keeps nothing across a restart. What the run waited on is left as it was. */
  function HostStopped(run: Run): Option<Moved> {
    if run.state.Running? || run.state.WaitingAtGate? then Some(Moved(run.(state := Interrupted), RunInterrupted))
    else None
  }

  function Retry(run: Run): Option<Moved> {
    match run.state
    case Failed => Some(Moved(run.(state := Running), RetryRequested(Failed, New)))
    case BudgetExceeded => Some(Moved(run.(state := Running), RetryRequested(BudgetExceeded, Same)))
    case Interrupted => Some(Moved(run.(state := Running), RetryRequested(Interrupted, Same)))
    case _ => None
  }

  // ---- Replay -----------------------------------------------------------------------------------

  /** Events about a step, its worker, or what a client asked for: beside the run, not moves of it. */
  predicate IsFact(e: Event) {
    e.StepStarted? || e.WorkerFact? || e.WorkerStarted? || e.WorkerStopped? || e.InteractionUsage? ||
    e.StepCompleted? || e.StepFailed? || IsIntent(e)
  }

  /** What a client asks for, and what became of it: written without the run's claim. */
  predicate IsIntent(e: Event) {
    e.CancelRequested? || e.TurnRequested? || e.TurnAnswered? || e.TurnFailed?
  }

  /** In a Track written before pickups were recorded, what shows the run had been picked up. */
  predicate ShowsPickup(e: Event) {
    e.StepStarted? || e.GateEscalated? || e.GateDecided? || e.RunCompleted? || e.RunFailed? ||
    e.BudgetStopped? || e.RunInterrupted? || e.RetryRequested?
  }

  /** The move an event is replayed as, with the arguments it recorded. */
  function MoveOf(run: Run, e: Event): Option<Moved> {
    match e
    case RunPickedUp => Pickup(run)
    case GateEscalated(step, escalation, held) => EscalateAt(run, step, escalation, held)
    case GateDecided(_, outcome, escalation, actor, value) => Decide(run, outcome, escalation, actor, value, None)
    case RunCompleted => Complete(run)
    case RunFailed(step, error, revision) =>
      if run.state.WaitingAtGate? && error == REVISE_LIMIT_EXCEEDED then
        (match revision
         case Some(r) => Decide(run, SendBack, r.escalation, "", r.value, Some(r.limit))
         case None => Decide(run, SendBack, None, "", "", None))
      else Fail(run, step, error)
    case BudgetStopped(dimension, step) => ExhaustBudget(run, dimension, step)
    case RunCancelled(actor) => Cancel(run, actor)
    case RunInterrupted => HostStopped(run)
    case RetryRequested(_, _) => Retry(run)
    case _ => None
  }

  /** Whether a move recorded what the Track records: the same event, agreeing on what decides where it leads. */
  predicate Agrees(e: Event, produced: Event) {
    match e
    case RunPickedUp => produced.RunPickedUp?
    case GateEscalated(_, _, _) => produced.GateEscalated?
    case GateDecided(_, outcome, _, _, _) => produced.GateDecided? && produced.outcome == outcome
    case RunCompleted => produced.RunCompleted?
    case RunFailed(_, error, _) => produced.RunFailed? && produced.error == error
    case BudgetStopped(dimension, _) => produced.BudgetStopped? && produced.dimension == dimension
    case RunCancelled(_) => produced.RunCancelled?
    case RunInterrupted => produced.RunInterrupted?
    case RetryRequested(from, kind) => produced.RetryRequested? && produced.from_status == from && produced.kind == kind
    case _ => false
  }

  /** `Run.apply`: the run after one event, or `None` for an event the machine could not have written here. */
  function Apply(run: Run, e: Event): Option<Run> {
    if IsFact(e) then Some(run)
    else
      var moved := MoveOf(run, e);
      if moved.Some? && Agrees(e, moved.value.record) then Some(moved.value.after) else None
  }

  datatype Replayed = NeverSubmitted | At(run: Run) | Refused

  function ReplayOne(beforePickups: bool, r: Replayed, e: Event): Replayed {
    match r
    case Refused => Refused
    case NeverSubmitted => if e.OpSubmitted? then At(NEW_RUN) else if IsFact(e) then NeverSubmitted else Refused
    case At(run) =>
      if e.OpSubmitted? then Refused
      else
        var from := if beforePickups && run.state.Submitted? && ShowsPickup(e) then run.(state := Running) else run;
        match Apply(from, e)
        case Some(after) => At(after)
        case None => Refused
  }

  function Scan(beforePickups: bool, events: seq<Event>): Replayed {
    if events == [] then NeverSubmitted
    else ReplayOne(beforePickups, Scan(beforePickups, events[..|events| - 1]), events[|events| - 1])
  }

  predicate HasPickup(events: seq<Event>) {
    exists k :: 0 <= k < |events| && events[k].RunPickedUp?
  }

  /** `Run.replay`. */
  function ReplayOf(events: seq<Event>): Replayed {
    Scan(!HasPickup(events), events)
  }

  method Replay(events: seq<Event>) returns (r: Replayed)
    ensures r == ReplayOf(events)
  {
    var beforePickups := true;
    for i := 0 to |events|
      invariant beforePickups == !HasPickup(events[..i])
    {
      assert events[..i + 1] == events[..i] + [events[i]];
      if events[i].RunPickedUp? {
        beforePickups := false;
        assert events[..i + 1][i].RunPickedUp?;
      } else {
        assert forall k :: 0 <= k < i ==> events[..i + 1][k] == events[..i][k];
        assert HasPickup(events[..i]) ==> HasPickup(events[..i + 1]) by {
          if HasPickup(events[..i]) {
            var k :| 0 <= k < i && events[..i][k].RunPickedUp?;
            assert events[..i + 1][k].RunPickedUp?;
          }
        }
      }
    }
    assert events[..|events|] == events;
    r := NeverSubmitted;
    for i := 0 to |events|
      invariant r == Scan(beforePickups, events[..i])
    {
      assert events[..i + 1][..i] == events[..i];
      r := ReplayOne(beforePickups, r, events[i]);
    }
  }

  lemma ScanSnoc(beforePickups: bool, events: seq<Event>, e: Event)
    ensures Scan(beforePickups, events + [e]) == ReplayOne(beforePickups, Scan(beforePickups, events), e)
  {
    assert (events + [e])[..|events|] == events;
  }

  /** Whether some move of the machine, made live, takes `run` to `after` recording `e`. */
  predicate IsMove(run: Run, e: Event, after: Run, reviseLimit: Option<nat>) {
    || Pickup(run) == Some(Moved(after, e))
    || (e.GateEscalated? && EscalateAt(run, e.step, e.escalation, e.held) == Some(Moved(after, e)))
    || (e.GateDecided? && Decide(run, e.outcome, e.escalation, e.actor, e.value, reviseLimit) == Some(Moved(after, e)))
    || (e.RunFailed? && e.revision.Some? && reviseLimit.Some?
        && Decide(run, SendBack, e.revision.value.escalation, "", e.revision.value.value, reviseLimit) == Some(Moved(after, e)))
    || Complete(run) == Some(Moved(after, e))
    || (e.RunFailed? && Fail(run, e.at_step, e.error) == Some(Moved(after, e)))
    || (e.BudgetStopped? && ExhaustBudget(run, e.dimension, e.at_step) == Some(Moved(after, e)))
    || (e.RunCancelled? && Cancel(run, e.actor) == Some(Moved(after, e)))
    || HostStopped(run) == Some(Moved(after, e))
    || Retry(run) == Some(Moved(after, e))
  }

  // ---- The chart of a run -----------------------------------------------------------------------

  /** In which state each event is accepted, and with what. */
  predicate IsAccepted(run: Run, e: Event) {
    match e
    case RunPickedUp => run.state == Submitted
    case GateEscalated(_, _, _) => run.state == Running
    case GateDecided(_, _, escalation, _, _) => run.state == WaitingAtGate && escalation == run.openEscalation
    case RunCompleted => run.state == Running
    case RunFailed(_, error, revision) =>
      || run.state == Running
      || (run.state == WaitingAtGate && error == "revise_limit_exceeded" && revision.Some?
          && revision.value.escalation == run.openEscalation
          && run.openStep.GetOr("") in run.escalations && run.escalations[run.openStep.GetOr("")] > revision.value.limit)
    case BudgetStopped(_, _) => run.state == Running
    case RunCancelled(actor) => run.state in {Submitted, Running, WaitingAtGate} && actor != ""
    case RunInterrupted => run.state in {Running, WaitingAtGate}
    case RetryRequested(from, kind) =>
      from == run.state && ((from == Failed && kind == New) || (from in {BudgetExceeded, Interrupted} && kind == Same))
    case _ => IsFact(e)
  }

  /** The state an accepted event leads to. */
  function LeadsTo(run: Run, e: Event): RunState {
    match e
    case RunPickedUp => Running
    case GateEscalated(_, _, _) => WaitingAtGate
    case GateDecided(_, outcome, _, _, _) => if outcome == Reject then Rejected else Running
    case RunCompleted => Completed
    case RunFailed(_, _, _) => Failed
    case BudgetStopped(_, _) => BudgetExceeded
    case RunCancelled(_) => Cancelled
    case RunInterrupted => Interrupted
    case RetryRequested(_, _) => Running
    case _ => run.state
  }

  /** Replay accepts an event exactly where the chart does, and goes where the chart leads. An escalation is counted for
      its step and is the one that is open until it is decided or the run is cancelled; nothing else changes that. */
  lemma ReplayFollowsTheChart(run: Run, e: Event)
    ensures Apply(run, e).Some? <==> IsAccepted(run, e)
    ensures Apply(run, e).Some? ==>
              var after := Apply(run, e).value;
              && after.state == LeadsTo(run, e)
              && (forall s :: after.Escalations(s) == run.Escalations(s) + if e.GateEscalated? && e.step == s then 1 else 0)
              && (if e.GateEscalated? then after.openStep == Some(e.step) && after.openEscalation == e.escalation
                  else if e.GateDecided? || e.RunCancelled? || (e.RunFailed? && run.state == WaitingAtGate)
                  then after.openStep.None? && after.openEscalation.None?
                  else after.openStep == run.openStep && after.openEscalation == run.openEscalation)
  {
  }

  /** A decision is taken exactly of the open escalation of a run at its Gate. A send back of a step that has escalated more
      often than the limit fails the run; any other decision is recorded, with who made it and what they found. */
  lemma DecisionIs(run: Run, outcome: Decision, escalation: Option<string>, actor: string, value: string, limit: Option<nat>)
    ensures var moved := Decide(run, outcome, escalation, actor, value, limit);
            && (moved.Some? <==> run.state == WaitingAtGate && escalation == run.openEscalation)
            && (moved.Some? ==>
                  if outcome == SendBack && limit.Some? && run.Escalations(run.openStep.GetOr("")) > limit.value then
                    && moved.value.record == RunFailed(run.openStep, "revise_limit_exceeded", Some(Revision(limit.value, escalation, value)))
                    && moved.value.after.state == Failed
                  else
                    && moved.value.record == GateDecided(run.openStep, outcome, escalation, actor, value)
                    && moved.value.after.state == if outcome == Reject then Rejected else Running)
  {
  }

  lemma EndedStates(state: RunState)
    ensures state.Ended() <==> state in {Completed, Failed, Rejected, Cancelled, BudgetExceeded, Interrupted}
  {
  }

  /** Replaying a record retraces the move that wrote it, whatever revision limit was in force then. */
  lemma ReplayRetraces(run: Run, e: Event, after: Run, reviseLimit: Option<nat>)
    requires IsMove(run, e, after, reviseLimit)
    ensures Apply(run, e) == Some(after)
  {
  }

  /** The run moves a host's calls make, each by the event it records: nothing else changes a run's state,
      and an ended run changes only by a retry, from failed, over budget or interrupted. */
  lemma EndedOnlyRetries(run: Run, e: Event)
    requires run.state.Ended() && Apply(run, e).Some? && Apply(run, e).value != run
    ensures e.RetryRequested? && (run.state.Failed? || run.state.BudgetExceeded? || run.state.Interrupted?)
    ensures Apply(run, e).value.state.Running?
    ensures Apply(run, e).value.escalations == run.escalations
  {
  }
}
