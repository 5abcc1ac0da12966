/** The runner as the program it is (runner.py, `LifecycleRunner`): calls that claim a run, a driver that loops
    over the Op's steps, and step functions that assign fields, while other threads cancel, clients write, and the
    host may stop between any two statements.

    Every statement is proved to be one step of the protocol of Runner.dfy, in a behaviour that starts from an
    empty Track: so all that is proved of behaviours holds of every history of these methods' calls. */
module LifecycleRunner {
  import opened Wrappers
  import opened Budget
  import opened RunMachine
  import opened Ledger
  import opened Readers
  import opened Runner
  import RunnerInv
  import RunnerReach
  import RunnerLaws
  import Keys
  import Views

  const NO_CHOICE := Choice(0, false, None, NotAnEnvelope)

  /** Where reading a Track leads a call: nowhere, to its own record, or straight to advancing. */
  datatype Going = Nowhere | ToWrite | ToAdvance

  lemma BehaviourSnoc(c: Config, states: seq<State>, a: Action, s: State)
    requires Behaviour(c, states) && Enabled(c, states[|states| - 1], a) && s == Do(c, states[|states| - 1], a)
    ensures Behaviour(c, states + [s])
  {
    hide Enabled, Do;
    var on := states + [s];
    forall k: nat ensures StepAt(c, on, k) {
      assert StepAt(c, states, k);
      if k + 1 < |states| {
        assert on[k] == states[k] && on[k + 1] == states[k + 1];
      }
    }
  }

  /** What others may have changed of a pass: who asked to cancel it, and the teardown of its worker. */
  ghost predicate Drifts(was: Pass, p: Pass) {
    && Alone(was) == Alone(p)
    && (was.cancelledBy.Some? || was.locked || !was.accepting ==> p.cancelledBy == was.cancelledBy)
  }

  /** What only the holder of the claim changes. */
  function Alone(p: Pass): Pass {
    p.(cancelledBy := None,
       attempt := if p.attempt.None? then None
                  else Some(p.attempt.value.(released := false, cancelTeardown := NotAsked, torn := [])))
  }

  lemma ClaimedWhileAwaited(c: Config, b: Book, p: Pass)
    requires RunnerInv.PassInv(c, b, p) && p.pc.AwaitingCancel? && p.attempt.Some?
    ensures !p.attempt.value.cancelTeardown.NotAsked?
  {
    hide RunnerInv.Walks, RunnerInv.LiveAt, RunnerInv.UsageAt;
  }

  /** What an answer makes of an attempt, and what it reports of its spending: a report only with a valid envelope. */
  predicate Read(c: Config, asked: Attempt, reply: Reply, a: Attempt, report: Option<Usage>) {
    match reply
    case Raised(error) => a == asked.(outcome := Broken(error)) && report.None?
    case NotAnEnvelope => a == asked.(outcome := Broken("EnvelopeInvalid")) && report.None?
    case Returned(envelope, json, raw) =>
      var unreadable := envelope.ok && !json;
      if ValidateUsage(raw, c.budget).Err? then
        a == asked.(answered := !unreadable, outcome := Broken("UsageUnavailable")) && report.None?
      else
        && a == asked.(answered := !unreadable, usage := report,
                       outcome := if unreadable then Broken("EnvelopeInvalid") else Answer(envelope))
        && report == ValidateUsage(raw, c.budget).value
  }

  lemma InteractsSo(c: Config, p: Pass, asked: Attempt, a: Attempt, report: Option<Usage>, ch: Choice)
    requires Read(c, asked, ch.reply, a, report)
    ensures OnInteracting(c, p, asked, ch) == Goes(With(p, a, Accounting(report)))
  {
    hide ValidateUsage;
  }

  /** An approval is only ever of an escalation that holds a result. */
  lemma {:induction false} ApprovalsHold(events: seq<Event>, s: string)
    ensures s in Fold(events).approved ==> Fold(events).approved[s].held.Some?
  {
    hide Fold, Post;
    if events != [] {
      var n := |events| - 1;
      ApprovalsHold(events[..n], s);
      assert events == events[..n] + [events[n]];
      FoldSnoc(events[..n], events[n]);
      PostGates(Fold(events[..n]), events[n], s);
    } else {
      NothingApproved();
    }
  }

  lemma NothingApproved()
    ensures Fold([]).approved == map[]
  {
  }

  lemma DriveReleases(c: Config, track: seq<Event>, p: Pass)
    requires p.pc.Releasing? && p.attempt.Some?
    ensures Drive(c, track, p, NO_CHOICE) == OnReleasing(p, p.attempt.value)
  {
    hide OnCall, OnWalk, OnEnd, OnOutcome, OnWorker, OnReleasing;
  }

  lemma DriveAwaits(c: Config, track: seq<Event>, p: Pass)
    requires p.pc.AwaitingCancel? && p.attempt.Some?
    ensures Drive(c, track, p, NO_CHOICE) == OnAwaitingCancel(p, p.attempt.value)
  {
    hide OnCall, OnWalk, OnEnd, OnOutcome, OnWorker, OnAwaitingCancel;
  }

  /** What the call's own record is written on: the run as read, and for a submission an empty Track. */
  ghost predicate Reread(p: Pass) {
    if p.call.Submit? then p.history == [] else ReplayOf(p.history) == At(p.run)
  }

  lemma Submits(op: Op, at: nat)
    ensures ReplayOf([] + [OpSubmitted(op, at)]).At?
  {
    var events := [OpSubmitted(op, at)];
    assert [] + events == events && events[..0] == [];
    assert Scan(!HasPickup(events), []) == NeverSubmitted;
  }

  lemma MoveReplays(events: seq<Event>, run: Run, e: Event)
    requires ReplayOf(events) == At(run) && !run.state.Submitted? && Apply(run, e).Some? && !e.OpSubmitted? && !e.RunPickedUp?
    ensures ReplayOf(events + [e]).At?
  {
    hide Apply, Scan;
    ScanSnoc(!HasPickup(events), events, e);
    if HasPickup(events) {
      var k :| 0 <= k < |events| && events[k].RunPickedUp?;
      assert (events + [e])[k].RunPickedUp?;
    }
    if HasPickup(events + [e]) {
      var k :| 0 <= k < |events + [e]| && (events + [e])[k].RunPickedUp?;
      assert events[k].RunPickedUp?;
    }
  }

  function CallMove(c: Config, p: Pass): Option<Moved> {
    match p.call
    case RetryRun => Retry(p.run)
    case DecideRun(outcome, escalation, actor, findings) => Decide(p.run, outcome, escalation, actor, findings, c.reviseLimit)
    case HostStart => HostStopped(p.run)
    case CancelRun(actor) => RunMachine.Cancel(p.run, actor)
    case Submit(_, _) => None
  }

  predicate Redrives(call: Call, moved: Option<Moved>) {
    moved.Some? && (call.RetryRun? || (call.DecideRun? && moved.value.after.state.Running?))
  }

  lemma WritesMove(c: Config, p: Pass, track: seq<Event>)
    requires !p.call.Submit?
    ensures OnWriting(c, p, track) == Records(CallMove(c, p), p, if Redrives(p.call, CallMove(c, p)) then Opening else Done)
  {
    hide WasSubmitted, Decide, HostStopped, RunMachine.Cancel;
  }

  /** The history a retry or a decision goes on from replays, its own record included. */
  lemma Redriven(c: Config, p: Pass)
    requires ReplayOf(p.history) == At(p.run) && Redrives(p.call, CallMove(c, p))
    ensures ReplayOf(p.history + [CallMove(c, p).value.record]).At?
  {
    hide ReplayOf, Apply;
    var moved := CallMove(c, p).value;
    ReplayRetraces(p.run, moved.record, moved.after, c.reviseLimit);
    MoveReplays(p.history, p.run, moved.record);
  }

  /** What the driver does at a step boundary. */
  datatype Bound = Skip | Close(end: End) | UseApproved | Start

  lemma DriveAtStep(c: Config, track: seq<Event>, p: Pass, ch: Choice)
    requires p.pc.AtStep?
    ensures Drive(c, track, p, ch) == OnAtStep(c, p, ch)
  {
    hide OnCall, OnEnd, OnTeardown, OnOutcome, OnWorker, OnAtStep;
  }

  lemma DriveApproving(c: Config, track: seq<Event>, p: Pass, ch: Choice)
    requires p.pc.Approving?
    ensures Drive(c, track, p, ch) == OnApproving(p)
  {
    hide OnCall, OnEnd, OnTeardown, OnOutcome, OnWorker, OnApproving;
  }

  lemma DriveResolving(c: Config, track: seq<Event>, p: Pass, ch: Choice)
    requires p.pc.Resolving?
    ensures Drive(c, track, p, ch) == OnResolving(p)
  {
    hide OnCall, OnEnd, OnTeardown, OnOutcome, OnWorker, OnResolving;
  }

  lemma DriveJudging(c: Config, track: seq<Event>, p: Pass, ch: Choice)
    requires p.pc.Judging? && p.attempt.Some?
    ensures Drive(c, track, p, ch) == OnJudging(c, p, p.attempt.value, ch)
  {
    hide OnCall, OnWalk, OnEnd, OnTeardown, OnWorker, OnJudging;
  }

  lemma DriveKeeping(c: Config, track: seq<Event>, p: Pass, ch: Choice)
    requires p.pc.Keeping? && p.attempt.Some?
    ensures Drive(c, track, p, ch) == OnKeeping(c, p, p.attempt.value)
  {
    hide OnCall, OnWalk, OnEnd, OnTeardown, OnWorker, OnKeeping;
  }

  lemma DriveKeepWriting(c: Config, track: seq<Event>, p: Pass, ch: Choice)
    requires p.pc.KeepWriting? && p.attempt.Some?
    ensures Drive(c, track, p, ch) == OnKeepWriting(c, p, p.attempt.value)
  {
    hide OnCall, OnWalk, OnEnd, OnTeardown, OnWorker, OnKeepWriting;
  }

  lemma DriveClosing(c: Config, track: seq<Event>, p: Pass, ch: Choice)
    requires p.pc.Closing?
    ensures Drive(c, track, p, ch) == OnClosing(c, p, p.pc.end)
  {
    hide OnCall, OnWalk, OnTeardown, OnOutcome, OnWorker, OnClosing;
  }

  lemma DriveEnding(c: Config, track: seq<Event>, p: Pass, ch: Choice)
    requires p.pc.Ending?
    ensures Drive(c, track, p, ch) == OnEnding(c, p, p.pc.end)
  {
    hide OnCall, OnWalk, OnTeardown, OnOutcome, OnWorker, OnEnding;
  }

  lemma DriveFailingStep(c: Config, track: seq<Event>, p: Pass, ch: Choice)
    requires p.pc.FailingStep? && p.attempt.Some?
    ensures Drive(c, track, p, ch) == OnFailingStep(c, p, p.attempt.value)
  {
    hide OnCall, OnWalk, OnEnd, OnTeardown, OnWorker, OnFailingStep;
  }

  lemma DriveCancellingStep(c: Config, track: seq<Event>, p: Pass, ch: Choice)
    requires p.pc.CancellingStep? && p.attempt.Some?
    ensures Drive(c, track, p, ch) == OnCancellingStep(c, p, p.attempt.value)
  {
    hide OnCall, OnWalk, OnEnd, OnTeardown, OnWorker, OnCancellingStep;
  }

  lemma DriveCancellingRun(c: Config, track: seq<Event>, p: Pass, ch: Choice)
    requires p.pc.CancellingRun?
    ensures Drive(c, track, p, ch) == OnCancellingRun(p)
  {
    hide OnCall, OnWalk, OnTeardown, OnOutcome, OnWorker, OnCancellingRun;
  }

  lemma DriveOpening(c: Config, track: seq<Event>, p: Pass, ch: Choice)
    requires p.pc.Opening?
    ensures Drive(c, track, p, ch) == OnOpening(p)
  {
    hide OnWalk, OnEnd, OnTeardown, OnOutcome, OnWorker, OnOpening;
  }

  lemma DrivePreparing(c: Config, track: seq<Event>, p: Pass, ch: Choice)
    requires p.pc.Preparing?
    ensures Drive(c, track, p, ch) == OnPreparing(c, p)
  {
    hide OnWalk, OnEnd, OnTeardown, OnOutcome, OnWorker, OnPreparing;
  }

  lemma DriveReading(c: Config, track: seq<Event>, p: Pass, ch: Choice)
    requires p.pc.Reading?
    ensures Drive(c, track, p, ch) == OnReading(p, track)
  {
    hide OnWalk, OnEnd, OnTeardown, OnOutcome, OnWorker, OnReading;
  }

  lemma DriveWriting(c: Config, track: seq<Event>, p: Pass, ch: Choice)
    requires p.pc.Writing?
    ensures Drive(c, track, p, ch) == OnWriting(c, p, track)
  {
    hide OnWalk, OnEnd, OnTeardown, OnOutcome, OnWorker, OnWriting;
  }

  // ---- What a pass writes of its end ------------------------------------------------------------

  /** What the run is recorded as when nobody cancels it. */
  predicate EndedBy(end: End, e: Event) {
    match end
    case Finished => e == RunCompleted
    case Broke => e.RunFailed? && e.at_step.Some?
    case Unaccountable => e == RunFailed(None, "UsageUnavailable", None)
    case OverBudget(dimension, step) => e == BudgetStopped(dimension, Some(step))
    case AtGate => e.GateEscalated? && e.held.Some?
    case OnlyIfCancelled => false
  }

  /** The end is among what was written, or `cancelled` is, naming who asked. */
  ghost predicate EndWritten(p: Pass, end: End, written: seq<Event>) {
    if p.cancelledBy.Some? then RunCancelled(p.cancelledBy.value) in written
    else exists e :: e in written && EndedBy(end, e)
  }

  ghost predicate SomeEndWritten(written: seq<Event>) {
    exists e :: e in written && RunnerLaws.IsEnd(e)
  }

  lemma EndWrittenIsSome(p: Pass, end: End, written: seq<Event>)
    requires EndWritten(p, end, written)
    ensures SomeEndWritten(written)
  {
    if p.cancelledBy.None? {
      var e :| e in written && EndedBy(end, e);
      assert RunnerLaws.IsEnd(e);
    } else {
      assert RunnerLaws.IsEnd(RunCancelled(p.cancelledBy.value));
    }
  }

  lemma InTail(from: seq<Event>, mid: seq<Event>, e: Event, to: seq<Event>)
    requires from <= mid && mid + [e] <= to
    ensures e in to[|from|..]
  {
    assert to[|from|..][|mid| - |from|] == e;
  }

  lemma TailWidens(from: seq<Event>, mid: seq<Event>, to: seq<Event>)
    requires from <= mid <= to
    ensures forall e :: e in to[|mid|..] ==> e in to[|from|..]
    ensures SomeEndWritten(to[|mid|..]) ==> SomeEndWritten(to[|from|..])
  {
    assert to[|from|..] == mid[|from|..] + to[|mid|..];
  }

  /** The pass is where the Track says it may be, so the machine takes the move that ends the run. */
  lemma EndIsMade(c: Config, states: seq<State>, s: State)
    requires Behaviour(c, states) && states[|states| - 1] == s && s.claim.Some?
    ensures var p := s.claim.value;
            && (p.pc.Ending? ==> EndMove(c, p, p.pc.end).Some? && EndedBy(p.pc.end, EndMove(c, p, p.pc.end).value.record))
            && (p.pc.CancellingRun? ==> p.cancelledBy.Some? && RunMachine.Cancel(p.run, p.cancelledBy.value).Some?
                                        && RunMachine.Cancel(p.run, p.cancelledBy.value).value.record == RunCancelled(p.cancelledBy.value))
  {
    hide Behaviour, RunnerReach.HistoryInv, RunnerInv.PassInv, Legal, Fold, EndMove, EndedBy, RunMachine.Cancel;
    Longer(c, states);
    RunnerReach.BehaviourKeeps(c, states, |states| - 1);
    var p := s.claim.value;
    if p.pc.Ending? {
      EndMakes(c, Fold(s.track), p);
    } else if p.pc.CancellingRun? {
      CancelMakes(c, Fold(s.track), p);
    }
  }

  lemma EndMakes(c: Config, b: Book, p: Pass)
    requires RunnerInv.PassInv(c, b, p) && p.pc.Ending?
    ensures EndMove(c, p, p.pc.end).Some? && EndedBy(p.pc.end, EndMove(c, p, p.pc.end).value.record)
  {
    hide RunnerInv.Walks, RunnerInv.LetGo, Tally, Distinct, RunnerInv.CallInv, RunnerInv.StepInv, RunnerInv.AttemptInv,
         Keys.Key, KeptAs;
  }

  lemma CancelMakes(c: Config, b: Book, p: Pass)
    requires RunnerInv.PassInv(c, b, p) && p.pc.CancellingRun?
    ensures p.cancelledBy.Some? && RunMachine.Cancel(p.run, p.cancelledBy.value).Some?
    ensures RunMachine.Cancel(p.run, p.cancelledBy.value).value.record == RunCancelled(p.cancelledBy.value)
  {
    hide RunnerInv.Walks, RunnerInv.LetGo, Tally, Distinct, RunnerInv.CallInv, RunnerInv.StepInv, RunnerInv.AttemptInv;
  }

  lemma {:induction false} TracksRise(c: Config, states: seq<State>, i: nat, j: nat)
    requires Behaviour(c, states) && i <= j < |states|
    ensures states[i].track <= states[j].track
    decreases j
  {
    hide RunnerReach.Inv, Enabled, Do, Behaviour;
    if i < j {
      TracksRise(c, states, i, j - 1);
      var a := RunnerLaws.OneStep(c, states, j - 1);
      RunnerLaws.TrackGrows(c, states[j - 1], a);
    }
  }

  lemma Longer(c: Config, states: seq<State>)
    requires Behaviour(c, states)
    ensures |states| > 0
  {
  }

  lemma Still(p: Pass)
    ensures Drifts(p, p)
  {
  }

  lemma AcceptingDrifts(p: Pass, who: string)
    ensures Drifts(p, Accepts(p, who)) || p.locked || !p.accepting
  {
  }

  lemma ReturningDrifts(p: Pass, raised: bool)
    requires p.attempt.Some?
    ensures Drifts(p, CancelReturns(p, raised))
  {
  }

  class LifecycleRunner {
    const c: Config

    // The Track and the payloads, which outlive the host.
    var track: seq<Event>
    var payloads: map<string, string>
    var claims: nat

    // The claim, and the pass of the call that holds it. Nothing branches on `now.pc`: it records where control is.
    var held: bool
    var now: Pass

    // Every state the protocol has been in.
    ghost var states: seq<State>

    constructor (c: Config)
      ensures Valid() && this.c == c && track == [] && !held
    {
      this.c := c;
      track, payloads, claims, held := [], map[], 0, false;
      now := Claimed(0, HostStart);
      states := [START];
    }

    ghost function Now(): State
      reads this
    {
      State(track, payloads, if held then Some(now) else None, claims)
    }

    /** The state is the last of a behaviour of the protocol. */
    ghost predicate Valid()
      reads this
    {
      Behaviour(c, states) && states[|states| - 1] == Now()
    }

    ghost method Note(was: State, a: Action)
      requires Behaviour(c, states) && states[|states| - 1] == was
      requires Enabled(c, was, a) && Now() == Do(c, was, a)
      modifies this`states
      ensures Valid() && old(states) <= states
    {
      hide Behaviour, Enabled, Do;
      BehaviourSnoc(c, states, a, Now());
      states := states + [Now()];
    }

    // ---- Everyone else ----------------------------------------------------------------------------

    /** `cancel()` of a run being advanced: taken only while the driver accepts it, against a live worker if one
        is up that nobody has claimed the teardown of. */
    method Cancel(who: string) returns (accepted: bool)
      requires Valid()
      modifies this
      ensures Valid() && old(states) <= states && old(track) <= track
      ensures held ==> old(held) && Drifts(old(now), now)
      ensures accepted <==> old(held) && old(now).accepting && !old(now).locked && who != ""
      ensures if accepted then held && now == Accepts(old(now), who) else Now() == old(Now())
    {
      hide Behaviour, MayWrite, WasSubmitted, Drifts;
      AcceptingDrifts(now, who);
      Still(now);
      accepted := held && now.accepting && !now.locked && who != "";
      if accepted {
        ghost var was := Now();
        now := now.(cancelledBy := if now.cancelledBy.Some? then now.cancelledBy else Some(who));
        if now.attempt.Some? && now.attempt.value.worker && !now.attempt.value.released {
          now := now.(attempt := Some(now.attempt.value.(released := true, cancelTeardown := Asked)));
        }
        Note(was, AcceptCancel(who));
      }
    }

    /** `cancel()`'s own teardown of the worker it claimed is over. */
    method CancelTornDown(raised: bool)
      requires Valid() && held && now.attempt.Some? && now.attempt.value.cancelTeardown.Asked?
      modifies this
      ensures Valid() && old(states) <= states && old(track) <= track
      ensures held ==> old(held) && Drifts(old(now), now)
      ensures held && now == CancelReturns(old(now), raised)
    {
      hide Behaviour, MayWrite, WasSubmitted, Drifts, Accepts, Claimed;
      ReturningDrifts(now, raised);
      ghost var was := Now();
      var a := now.attempt.value;
      now := now.(attempt := Some(a.(cancelTeardown := CancelTeardown.Returned(raised), torn := a.torn + [ByCancel(raised)])));
      Note(was, CancelTeardownReturns(raised));
    }

    method HostStops()
      requires Valid()
      modifies this
      ensures Valid() && old(states) <= states && track == old(track) && !held
    {
      hide Behaviour;
      ghost var was := Now();
      held := false;
      Note(was, Crash);
    }

    /** What a client appends, under the condition it appends it with. */
    method ClientAppends(e: Event)
      requires Valid()
      modifies this
      ensures Valid() && old(states) <= states && old(track) <= track
      ensures held ==> old(held) && Drifts(old(now), now)
      ensures track == old(track) || track == old(track) + [e]
    {
      hide Behaviour, WasSubmitted, MayWrite;
      ghost var was := Now();
      if e.OpSubmitted? && !WasSubmitted(track) {
        track := track + [e];
        Note(was, ClientSubmits(e.op, e.at));
      } else if MayWrite(track, e) {
        track := track + [e];
        Note(was, ClientWrites(e));
      }
    }

    /** Another run, of this host or another, keeps a payload under one of its own keys. */
    method OtherRunKeeps(run: string, step: string, number: nat, payload: string)
      requires Valid()
      modifies this
      ensures Valid() && old(states) <= states && track == old(track)
      ensures held == old(held) && now == old(now)
    {
      hide Behaviour;
      if run != c.run {
        ghost var was := Now();
        payloads := payloads[Keys.Key(run, step, number) := payload];
        Note(was, Runner.OtherRunKeeps(run, step, number, payload));
      }
    }

    /** Whatever others do between two of the holder's statements. */
    method Others()
      requires Valid()
      modifies this
      ensures Valid() && old(states) <= states && old(track) <= track
      ensures held ==> old(held) && Drifts(old(now), now)
    {
      hide Behaviour, Accepts, CancelReturns;
      var n: nat :| true;
      for k := 0 to n
        invariant Valid() && old(states) <= states && old(track) <= track
        invariant held ==> old(held) && Drifts(old(now), now)
      {
        var who: string, raised: bool, e: Event := *, *, *;
        var run: string, step: string, number: nat, payload: string := *, *, *, *;
        if {
          case true => var _ := Cancel(who);
          case held && now.attempt.Some? && now.attempt.value.cancelTeardown.Asked? => CancelTornDown(raised);
          case true => HostStops();
          case true => ClientAppends(e);
          case true =>
            Still(now);
            OtherRunKeeps(run, step, number, payload);
        }
      }
    }

    // ---- Claiming, reading, writing ---------------------------------------------------------------

    /** `_acquire`: refused while another call of this host holds the run. */
    method Acquire(call: Call) returns (busy: bool)
      requires Valid()
      requires call.Submit? ==> Distinct(call.op)
      requires (call.DecideRun? ==> call.by_actor != "") && (call.CancelRun? ==> call.by_actor != "")
      modifies this
      ensures Valid() && old(states) <= states
      ensures busy <==> old(held)
      ensures busy ==> Now() == old(Now())
      ensures !busy && held ==> Drifts(Claimed(old(claims), call), now)
    {
      hide Behaviour, MayWrite, WasSubmitted, Distinct;
      busy := held;
      if !busy {
        ghost var was := Now();
        held, now, claims := true, Claimed(claims, call), claims + 1;
        Note(was, Runner.Acquire(call));
        Others();
      }
    }

    /** The holder's statement was the protocol's next step. */
    ghost method Took(was: State, ch: Choice)
      requires Behaviour(c, states) && states[|states| - 1] == was && was.claim.Some?
      requires Enabled(c, was, Runner.Advance(ch))
      requires held && claims == was.claims && After(was, Drive(c, was.track, was.claim.value, ch))
      modifies this`states
      ensures Valid() && old(states) <= states
    {
      hide Behaviour, Drive, MayWrite, WasSubmitted;
      Note(was, Runner.Advance(ch));
    }

    ghost predicate After(was: State, f: Effect)
      reads this
    {
      && track == (if f.event.Some? then was.track + [f.event.value] else was.track)
      && payloads == (if f.put.Some? then was.payloads[f.put.value.0 := f.put.value.1] else was.payloads)
      && f.pass == Some(now)
    }

    /** Every statement of the driver keeps the Op it walks, where it is in it, and its attempt. */
    ghost predicate Same(p: Pass, q: Pass) {
      q.op == p.op && q.i == p.i && (p.attempt.Some? ==> q.attempt.Some?)
    }

    method Append(e: Event)
      modifies this`track, this`now
      ensures track == old(track) + [e] && now == old(now).(history := old(now).history + [e])
    {
      track := track + [e];
      now := now.(history := now.history + [e]);
    }

    // ---- The attempt's step functions -------------------------------------------------------------

    /** No worker is brought up for a run cancelled already. */
    method CheckCancelled() returns (go: bool)
      requires Valid() && held && now.pc.Checking? && now.attempt.Some?
      modifies this
      ensures Valid() && old(states) <= states
      ensures held ==> Same(old(now), now) && now.pc == if go then Materializing else Judging
    {
      hide Behaviour, MayWrite, WasSubmitted, Fold, ReplayOf, Distinct, Rebuilt, OnCall, OnWalk, OnEnd, OnTeardown,
           OnOutcome;
      ghost var was := Now();
      go := now.cancelledBy.None?;
      if go {
        now := now.(pc := Materializing);
      } else {
        now := now.(attempt := Some(now.attempt.value.(outcome := Broken("_Cancelled"))), pc := Judging);
      }
      Took(was, NO_CHOICE);
      Others();
    }

    /** `materialize`, up to the executor's answer: it may raise. */
    method Materialize() returns (up: bool)
      requires Valid() && held && now.pc.Materializing? && now.attempt.Some?
      modifies this
      ensures Valid() && old(states) <= states
      ensures held ==> Same(old(now), now) && now.pc == if up then Recording else Judging
    {
      hide Behaviour, MayWrite, WasSubmitted, Fold, ReplayOf, Distinct, Rebuilt, OnCall, OnWalk, OnEnd, OnTeardown,
           OnOutcome;
      ghost var was := Now();
      var raises: bool, token: Option<string> := *, *;
      var a := now.attempt.value;
      up := !raises;
      if raises {
        now := now.(attempt := Some(a.(outcome := Broken("Exception"))), pc := Judging);
      } else {
        now := now.(attempt := Some(a.(worker := true, token := token)), pc := Recording);
      }
      Took(was, Choice(0, raises, token, NotAnEnvelope));
      Others();
    }

    method RecordMaterialized() returns (tokened: bool)
      requires Valid() && held && now.pc.Recording? && now.attempt.Some?
      modifies this
      ensures Valid() && old(states) <= states
      ensures held ==> Same(old(now), now) && now.pc == if tokened then StartingWorker else Readying
    {
      hide Behaviour, MayWrite, WasSubmitted, Fold, ReplayOf, Distinct, Rebuilt, OnCall, OnWalk, OnEnd, OnTeardown,
           OnOutcome;
      ghost var was := Now();
      var a := now.attempt.value;
      tokened := a.token.Some?;
      Append(WorkerFact(a.step.name, Materialized));
      now := now.(pc := if tokened then StartingWorker else Readying);
      Took(was, NO_CHOICE);
      Others();
    }

    method RecordStarted()
      requires Valid() && held && now.pc.StartingWorker? && now.attempt.Some?
      modifies this
      ensures Valid() && old(states) <= states
      ensures held ==> Same(old(now), now) && now.pc.Readying?
    {
      hide Behaviour, MayWrite, WasSubmitted, Fold, ReplayOf, Distinct, Rebuilt, OnCall, OnWalk, OnEnd, OnTeardown,
           OnOutcome, Keys.Instance;
      ghost var was := Now();
      var a := now.attempt.value;
      Append(WorkerStarted(a.step.name, a.number, Keys.Instance(a.step.name, a.number), a.token.GetOr("")));
      now := now.(attempt := Some(a.(started := true)), pc := Readying);
      Took(was, NO_CHOICE);
      Others();
    }

    method RecordReady()
      requires Valid() && held && now.pc.Readying? && now.attempt.Some?
      modifies this
      ensures Valid() && old(states) <= states
      ensures held ==> Same(old(now), now) && now.pc.Invoking?
    {
      hide Behaviour, MayWrite, WasSubmitted, Fold, ReplayOf, Distinct, Rebuilt, OnCall, OnWalk, OnEnd, OnTeardown,
           OnOutcome;
      ghost var was := Now();
      Append(WorkerFact(now.attempt.value.step.name, Ready));
      now := now.(pc := Invoking);
      Took(was, NO_CHOICE);
      Others();
    }

    /** `interact`, up to the invocation: none is made of a run cancelled already. */
    method Invoke() returns (invoked: bool)
      requires Valid() && held && now.pc.Invoking? && now.attempt.Some?
      modifies this
      ensures Valid() && old(states) <= states
      ensures held ==> Same(old(now), now) && now.pc == if invoked then Interacting else Releasing
    {
      hide Behaviour, MayWrite, WasSubmitted, Fold, ReplayOf, Distinct, Rebuilt, OnCall, OnWalk, OnEnd, OnTeardown,
           OnOutcome;
      ghost var was := Now();
      var a := now.attempt.value;
      invoked := now.cancelledBy.None?;
      if invoked {
        Append(WorkerFact(a.step.name, InteractionStarted));
        now := now.(pc := Interacting);
      } else {
        now := now.(attempt := Some(a.(outcome := Broken("_Cancelled"))), pc := Releasing);
      }
      Took(was, NO_CHOICE);
      Others();
    }

    /** `read_envelope`, and the handlers of what it raises. */
    method ReadEnvelope(asked: Attempt, reply: Reply) returns (a: Attempt, report: Option<Usage>)
      ensures Read(c, asked, reply, a, report)
    {
      a, report := asked, None;
      match reply {
        case Raised(error) => a := a.(outcome := Broken(error));
        case NotAnEnvelope => a := a.(outcome := Broken("EnvelopeInvalid"));
        case Returned(envelope, json, raw) =>
          var unreadable := envelope.ok && !json;
          a := a.(answered := !unreadable);
          var usage := ValidateUsage(raw, c.budget);
          if usage.Err? {
            a := a.(outcome := Broken("UsageUnavailable"));
          } else {
            a := a.(usage := usage.value, outcome := if unreadable then Broken("EnvelopeInvalid") else Answer(envelope));
            report := usage.value;
          }
      }
    }

    /** `worker.interact` and `read_envelope`: whatever comes back, what was spent is reported, or reported unknown. */
    method Interact() returns (report: Option<Usage>)
      requires Valid() && held && now.pc.Interacting? && now.attempt.Some?
      modifies this
      ensures Valid() && old(states) <= states
      ensures held ==> Same(old(now), now) && now.pc == Accounting(report)
    {
      hide Behaviour, MayWrite, WasSubmitted, Fold, ReplayOf, Distinct, Rebuilt, OnCall, OnWalk, OnEnd, OnTeardown,
           OnOutcome, OnInteracting, Read;
      ghost var was := Now();
      var reply: Reply := *;
      var a;
      a, report := ReadEnvelope(now.attempt.value, reply);
      InteractsSo(c, now, now.attempt.value, a, report, Choice(0, false, None, reply));
      now := now.(attempt := Some(a), pc := Accounting(report));
      Took(was, Choice(0, false, None, reply));
      Others();
    }

    method Account(report: Option<Usage>)
      requires Valid() && held && now.pc == Accounting(report) && now.attempt.Some?
      modifies this
      ensures Valid() && old(states) <= states
      ensures held ==> Same(old(now), now) && now.pc.Releasing?
    {
      hide Behaviour, MayWrite, WasSubmitted, Fold, ReplayOf, Distinct, Rebuilt, OnCall, OnWalk, OnEnd, OnTeardown,
           OnOutcome;
      ghost var was := Now();
      var a := now.attempt.value;
      Append(InteractionUsage(a.step.name, a.number, report));
      now := now.(pc := Releasing);
      Took(was, NO_CHOICE);
      Others();
    }

    /** `_tear_down`, under the lock: the worker is the driver's to tear down, unless a cancel claimed it. */
    method Release() returns (byCancel: bool)
      requires Valid() && held && now.pc.Releasing? && now.attempt.Some?
      modifies this
      ensures Valid() && old(states) <= states
      ensures held ==> Same(old(now), now) && now.pc == (if byCancel then AwaitingCancel else if now.attempt.value.answered then Idling else TearingDown)
    {
      hide Behaviour, MayWrite, WasSubmitted, Fold, ReplayOf, Distinct, Rebuilt, OnCall, OnWalk, OnEnd, OnWorker,
           OnOutcome;
      hide Drive;
      ghost var was := Now();
      DriveReleases(c, track, now);
      var a := now.attempt.value;
      byCancel := a.released;
      if byCancel {
        now := now.(pc := AwaitingCancel);
      } else {
        now := now.(attempt := Some(a.(released := true, orderly := a.answered)), pc := if a.answered then Idling else TearingDown);
      }
      Took(was, NO_CHOICE);
      hide OnReleasing, Enabled, After;
      ghost var left := now;
      Others();
      assert held ==> now.attempt.Some? && now.attempt.value.answered == left.attempt.value.answered && now.pc == left.pc;
    }

    /** A cancel that claimed the worker has its teardown under way, or over: there is always one to wait for. */
    lemma SomeoneTearsDown()
      requires Valid() && held && now.pc.AwaitingCancel? && now.attempt.Some?
      ensures !now.attempt.value.cancelTeardown.NotAsked?
    {
      hide Behaviour, Fold, Legal;
      Longer(c, states);
      RunnerReach.BehaviourKeeps(c, states, |states| - 1);
      ClaimedWhileAwaited(c, Fold(track), now);
    }

    /** `attempt.cancel_teardown.wait()` */
    method AwaitCancel()
      requires Valid() && held && now.pc.AwaitingCancel? && now.attempt.Some?
      modifies this
      ensures Valid() && old(states) <= states
      ensures held ==> Same(old(now), now) && now.pc.AwaitingCancel? && now.attempt.value.cancelTeardown.Returned?
    {
      SomeoneTearsDown();
      hide Behaviour;
      if now.attempt.value.cancelTeardown.Asked? {
        var raised: bool := *;
        CancelTornDown(raised);
      }
    }

    /** What the cancel's teardown came to: the worker is gone, or it raised and is torn down once more. */
    method TakeCancels() returns (gone: bool)
      requires Valid() && held && now.pc.AwaitingCancel? && now.attempt.Some? && now.attempt.value.cancelTeardown.Returned?
      modifies this
      ensures Valid() && old(states) <= states
      ensures held ==> Same(old(now), now)
                       && now.pc == if !gone then TearingDown else if now.attempt.value.started then Stopping else Judging
    {
      hide Behaviour, MayWrite, WasSubmitted, Fold, ReplayOf, Distinct, Rebuilt;
      hide Drive;
      ghost var was := Now();
      DriveAwaits(c, track, now);
      var a := now.attempt.value;
      gone := a.cancelTeardown == CancelTeardown.Returned(false);
      now := now.(pc := if !gone then TearingDown else if a.started then Stopping else Judging);
      Took(was, NO_CHOICE);
      Others();
    }

    method RecordIdle()
      requires Valid() && held && now.pc.Idling? && now.attempt.Some?
      modifies this
      ensures Valid() && old(states) <= states
      ensures held ==> Same(old(now), now) && now.pc.TearingStart?
    {
      hide Behaviour, MayWrite, WasSubmitted, Fold, ReplayOf, Distinct, Rebuilt, OnCall, OnWalk, OnEnd, OnWorker,
           OnOutcome;
      ghost var was := Now();
      Append(WorkerFact(now.attempt.value.step.name, Idle));
      now := now.(pc := TearingStart);
      Took(was, NO_CHOICE);
      Others();
    }

    method RecordTeardown()
      requires Valid() && held && now.pc.TearingStart? && now.attempt.Some?
      modifies this
      ensures Valid() && old(states) <= states
      ensures held ==> Same(old(now), now) && now.pc.TearingDown?
    {
      hide Behaviour, MayWrite, WasSubmitted, Fold, ReplayOf, Distinct, Rebuilt, OnCall, OnWalk, OnEnd, OnWorker,
           OnOutcome;
      ghost var was := Now();
      Append(WorkerFact(now.attempt.value.step.name, TeardownStarted));
      now := now.(pc := TearingDown);
      Took(was, NO_CHOICE);
      Others();
    }

    /** `executor.teardown`, which may raise. */
    method TearDown() returns (raised: bool)
      requires Valid() && held && now.pc.TearingDown? && now.attempt.Some?
      modifies this
      ensures Valid() && old(states) <= states
      ensures held ==> Same(old(now), now) && now.pc == (if raised then (if now.attempt.value.orderly then NotingFailure else Judging)
                                         else if now.attempt.value.started then Stopping else Judging)
    {
      hide Behaviour, MayWrite, WasSubmitted, Fold, ReplayOf, Distinct, Rebuilt, OnCall, OnWalk, OnEnd, OnWorker,
           OnOutcome;
      ghost var was := Now();
      raised := *;
      var a := now.attempt.value;
      now := now.(attempt := Some(a.(torn := a.torn + [ByDriver(raised)], teardownError := raised)),
                  pc := if raised then (if a.orderly then NotingFailure else Judging) else if a.started then Stopping else Judging);
      Took(was, Choice(0, raised, None, NotAnEnvelope));
      Others();
    }

    method RecordTeardownFailed()
      requires Valid() && held && now.pc.NotingFailure? && now.attempt.Some?
      modifies this
      ensures Valid() && old(states) <= states
      ensures held ==> Same(old(now), now) && now.pc.Judging?
    {
      hide Behaviour, MayWrite, WasSubmitted, Fold, ReplayOf, Distinct, Rebuilt, OnCall, OnWalk, OnEnd, OnWorker,
           OnOutcome;
      ghost var was := Now();
      Append(WorkerFact(now.attempt.value.step.name, TeardownFailed));
      now := now.(pc := Judging);
      Took(was, NO_CHOICE);
      Others();
    }

    method RecordStopped()
      requires Valid() && held && now.pc.Stopping? && now.attempt.Some?
      modifies this
      ensures Valid() && old(states) <= states
      ensures held ==> Same(old(now), now) && now.pc.Judging?
    {
      hide Behaviour, MayWrite, WasSubmitted, Fold, ReplayOf, Distinct, Rebuilt, OnCall, OnWalk, OnEnd, OnWorker,
           OnOutcome, Keys.Instance;
      ghost var was := Now();
      var a := now.attempt.value;
      Append(WorkerStopped(a.step.name, a.number, Keys.Instance(a.step.name, a.number)));
      now := now.(pc := Judging);
      Took(was, NO_CHOICE);
      Others();
    }

    // ---- The attempt ------------------------------------------------------------------------------

    /** `teardown`: the worker is let go of, by this call or by the cancel that claimed it. */
    method TearWorkerDown()
      requires Valid() && held && now.pc.Releasing? && now.attempt.Some?
      modifies this
      ensures Valid() && old(states) <= states
      ensures held ==> Same(old(now), now) && now.pc.Judging?
    {
      hide Behaviour, Valid;
      var byCancel := Release();
      if !held { return; }
      var tearing := true;
      if byCancel {
        AwaitCancel();
        if !held { return; }
        var gone := TakeCancels();
        if !held { return; }
        tearing := !gone;
      } else if now.attempt.value.answered {
        RecordIdle();
        if !held { return; }
        RecordTeardown();
        if !held { return; }
      }
      if tearing {
        var raised := TearDown();
        if !held { return; }
        if raised {
          if now.attempt.value.orderly {
            RecordTeardownFailed();
          }
          return;
        }
      }
      if now.attempt.value.started {
        RecordStopped();
      }
    }

    /** `_run_attempt`: whatever happens to the worker, it is torn down. */
    method RunAttempt()
      requires Valid() && held && now.pc.Checking? && now.attempt.Some?
      modifies this
      ensures Valid() && old(states) <= states
      ensures held ==> Same(old(now), now) && now.pc.Judging?
    {
      hide Behaviour, Valid;
      var go := CheckCancelled();
      if !held || !go { return; }
      var up := Materialize();
      if !held || !up { return; }
      var tokened := RecordMaterialized();
      if !held { return; }
      if tokened {
        RecordStarted();
        if !held { return; }
      }
      RecordReady();
      if !held { return; }
      var invoked := Invoke();
      if !held { return; }
      if invoked {
        var report := Interact();
        if !held { return; }
        Account(report);
        if !held { return; }
      }
      TearWorkerDown();
    }

    // ---- The driver -------------------------------------------------------------------------------

    /** What the driver does with the step it is at: the last step reached is the one a budget stop names. */
    method BoundAt(at: nat) returns (b: Bound, p: Pass)
      requires now.pc.AtStep? && now.i < |now.op.steps|
      ensures OnAtStep(c, now, Choice(at, false, None, NotAnEnvelope)) == Goes(p)
      ensures p.op == now.op && p.history == now.history && p.cancelledBy == now.cancelledBy
      ensures p.i == if b.Skip? then now.i + 1 else now.i
      ensures p.pc == match b case Skip => AtStep case Close(end) => Closing(end) case UseApproved => Approving case Start => Resolving
      ensures b.Close? ==> b.end.OverBudget? || (b.end.OnlyIfCancelled? && now.cancelledBy.Some?)
      ensures b.UseApproved? ==> now.op.steps[now.i].name in Fold(now.history).approved
    {
      hide Fold, Check;
      var name := now.op.steps[now.i].name;
      if name in now.completed {
        return Skip, now.(i := now.i + 1);
      }
      if now.cancelledBy.Some? {
        return Close(OnlyIfCancelled), now.(pc := Closing(OnlyIfCancelled));
      }
      p := now.(spentOn := Some(name));
      var approved := Approved(now.history, name);
      if approved.Some? {
        return UseApproved, p.(pc := Approving);
      }
      var over := Check(c, now, at);
      if over.Some? {
        return Close(OverBudget(over.value, name)), p.(pc := Closing(OverBudget(over.value, name)));
      }
      return Start, p.(pc := Resolving);
    }

    /** A step boundary. */
    method Boundary() returns (b: Bound)
      requires Valid() && held && now.pc.AtStep? && now.i < |now.op.steps|
      modifies this
      ensures Valid() && old(states) <= states
      ensures held ==> now.op == old(now).op
                       && now.i == (if b.Skip? then old(now).i + 1 else old(now).i)
                       && now.pc == (match b case Skip => AtStep case Close(end) => Closing(end) case UseApproved => Approving case Start => Resolving)
      ensures held && b.Close? ==> CanEnd(b.end)
      ensures held && b.UseApproved? ==> now.op.steps[now.i].name in Fold(now.history).approved
    {
      hide Behaviour, MayWrite, WasSubmitted, Fold, ReplayOf, Distinct, Rebuilt, Drive, OnAtStep;
      ghost var was := Now();
      var at: nat := *;
      DriveAtStep(c, track, now, Choice(at, false, None, NotAnEnvelope));
      var p;
      b, p := BoundAt(at);
      now := p;
      Took(was, Choice(at, false, None, NotAnEnvelope));
      Others();
    }

    /** The end of a run is a boundary too, for a call that reached a step. */
    method LastBoundary() returns (end: End)
      requires Valid() && held && now.pc.AtStep? && now.i >= |now.op.steps|
      modifies this
      ensures Valid() && old(states) <= states
      ensures held ==> now.pc == Closing(end)
      ensures end.Finished? || end.OverBudget?
    {
      hide Behaviour, MayWrite, WasSubmitted, Fold, ReplayOf, Distinct, Rebuilt, Drive;
      ghost var was := Now();
      var at: nat := *;
      DriveAtStep(c, track, now, Choice(at, false, None, NotAnEnvelope));
      end := Finished;
      if now.spentOn.Some? {
        var over := Check(c, now, at);
        if over.Some? {
          end := OverBudget(over.value, now.spentOn.value);
        }
      }
      now := now.(pc := Closing(end));
      Took(was, Choice(at, false, None, NotAnEnvelope));
      Others();
    }

    /** `resolve`: name the attempt, and record that it started. */
    method Resolve()
      requires Valid() && held && now.pc.Resolving? && now.i < |now.op.steps|
      modifies this
      ensures Valid() && old(states) <= states
      ensures held ==> Same(old(now), now) && now.pc.Checking? && now.attempt.Some?
    {
      hide Behaviour, MayWrite, WasSubmitted, Fold, ReplayOf, Distinct, Rebuilt, Drive;
      ghost var was := Now();
      DriveResolving(c, track, now, NO_CHOICE);
      var step := now.op.steps[now.i];
      var number := now.run.Escalations(step.name) + now.retries;
      Append(StepStarted(step.name, number));
      now := now.(attempt := Some(Attempt(step, number, false, None, false, false, None, Broken("Unknown"), false, NotAsked, false, false, [])),
                  pc := Checking);
      Took(was, NO_CHOICE);
      Others();
    }

    /** What becomes of an attempt whose worker is let go of. */
    method Judge() returns (end: Option<End>)
      requires Valid() && held && now.pc.Judging? && now.attempt.Some?
      modifies this
      ensures Valid() && old(states) <= states
      ensures held ==> Same(old(now), now) && now.pc == if end.Some? then Closing(end.value) else Keeping
      ensures held ==> if end.Some? then CanEnd(end.value) else now.attempt.value.outcome.Answer?
    {
      hide Behaviour, MayWrite, WasSubmitted, Fold, ReplayOf, Distinct, Rebuilt, Drive, Check, Evaluate, Add;
      ghost var was := Now();
      var at: nat := *;
      DriveJudging(c, track, now, Choice(at, false, None, NotAnEnvelope));
      var a := now.attempt.value;
      if now.cancelledBy.Some? {
        end := Some(OnlyIfCancelled);
      } else if a.teardownError || !a.outcome.Answer? || !a.outcome.envelope.ok {
        end := Some(Broke);
      } else {
        if now.tracker.Some? {
          now := now.(tracker := Some(Add(now.tracker.value, a.usage)));
        }
        now := now.(stop := Check(c, now, at));
        var gate := Evaluate(a.step.gate, a.outcome.envelope.problems);
        end := if gate.Escalate? then Some(AtGate) else None;
      }
      now := now.(pc := if end.Some? then Closing(end.value) else Keeping);
      Took(was, Choice(at, false, None, NotAnEnvelope));
      Others();
    }

    // ---- Under the condition ----------------------------------------------------------------------

    /** A worker that could not be torn down is recorded beside the cancel, not hidden. */
    method RecordLeak()
      requires Valid() && held && now.pc.CancellingStep? && now.attempt.Some?
      modifies this
      ensures Valid() && old(states) <= states && old(track) <= track
      ensures held ==> now.pc.CancellingRun?
    {
      hide Behaviour, MayWrite, WasSubmitted, Fold, ReplayOf, Distinct, Rebuilt, Drive, Keys.Key;
      ghost var was := Now();
      var a := now.attempt.value;
      DriveCancellingStep(c, track, now, NO_CHOICE);
      Append(StepFailed(a.step.name, a.number, Keys.Key(c.run, a.step.name, a.number), "TeardownFailed", true));
      now := now.(pc := CancellingRun);
      Took(was, NO_CHOICE);
      Others();
    }

    /** A cancel taken first ends the run `cancelled`. */
    method EndCancelled(ghost since: seq<Event>)
      requires Valid() && held && since <= track
      requires now.pc.CancellingRun? || (now.pc.CancellingStep? && now.attempt.Some?)
      modifies this
      ensures Valid() && old(states) <= states && old(track) <= track
      ensures held ==> now.pc.Done? && now.cancelledBy.Some? && RunCancelled(now.cancelledBy.value) in track[|since|..]
      ensures held ==> SomeEndWritten(track[|since|..])
    {
      hide Behaviour, MayWrite, WasSubmitted, Fold, ReplayOf, Distinct, Rebuilt, Drive, RunMachine.Cancel;
      if now.pc.CancellingStep? {
        RecordLeak();
        if !held { return; }
      }
      ghost var was := Now();
      DriveCancellingRun(c, track, now, NO_CHOICE);
      EndIsMade(c, states, was);
      RecordEnd(RunMachine.Cancel(now.run, now.cancelledBy.GetOr("")));
      Took(was, NO_CHOICE);
      Others();
      ghost var end := RunCancelled(was.claim.value.cancelledBy.value);
      InTail(since, was.track, end, track);
      assert RunnerLaws.IsEnd(end);
    }

    /** Write a run's ending move, and take no cancel from then on. A move the machine refuses is not written. */
    method RecordEnd(moved: Option<Moved>)
      modifies this`track, this`now
      ensures var f := Records(moved, old(now).(accepting := false, locked := false), Done);
              && f.pass == Some(now)
              && track == if f.event.Some? then old(track) + [f.event.value] else old(track)
    {
      now := now.(accepting := false, locked := false);
      if moved.Some? {
        Append(moved.value.record);
        now := now.(run := moved.value.after);
      }
      now := now.(pc := Done);
    }

    method EnterCancel()
      requires now.cancelledBy.Some?
      modifies this`now
      ensures EntersCancel(old(now)).pass == Some(now)
      ensures now.pc == (if now.attempt.Some? && now.attempt.value.teardownError then CancellingStep else CancellingRun)
    {
      now := now.(locked := true,
                  pc := if now.attempt.Some? && now.attempt.value.teardownError then CancellingStep else CancellingRun);
    }

    /** The move that ends the run as `end` says. */
    method MoveFor(end: End) returns (moved: Option<Moved>)
      ensures moved == EndMove(c, now, end)
    {
      match end {
        case Finished => moved := Complete(now.run);
        case Broke =>
          moved := None;
          if now.attempt.Some? {
            var a := now.attempt.value;
            moved := Fail(now.run, Some(a.step.name), if a.teardownError then "TeardownFailed" else OwnError(a));
          }
        case Unaccountable => moved := Fail(now.run, None, "UsageUnavailable");
        case OverBudget(dimension, step) => moved := ExhaustBudget(now.run, dimension, Some(step));
        case AtGate =>
          moved := None;
          if now.attempt.Some? && now.attempt.value.outcome.Answer? {
            var a := now.attempt.value;
            var payload := a.outcome.envelope.payload;
            moved := EscalateAt(now.run, a.step.name, Some(EscalationId(c, a.step.name, a.number)),
                                Some(Held(a.number, a.usage, KeptAs(c, a, payload), payload)));
          }
        case OnlyIfCancelled => moved := None;
      }
    }

    /** `_finish`: the run's end is written, or `cancelled` if a cancel was taken first; no cancel is taken after. The
        call comes back still holding the run only once that is on the Track. */
    method Finish(end: End, ghost since: seq<Event>)
      requires Valid() && held && now.pc == Closing(end) && CanEnd(end) && since <= track
      modifies this
      ensures Valid() && old(states) <= states && old(track) <= track
      ensures held ==> now.pc.Done? && EndWritten(now, end, track[|since|..]) && SomeEndWritten(track[|since|..])
    {
      hide Behaviour, Valid, SomeEndWritten;
      var cancelling := TakeCondition(end);
      if !held { return; }
      if cancelling {
        EndCancelled(since);
        return;
      }
      if end.Broke? {
        FailStep();
        if !held { return; }
      }
      WriteEnd(end, since);
    }

    method WriteEnd(end: End, ghost since: seq<Event>)
      requires Valid() && held && now.pc == Ending(end) && now.locked && now.cancelledBy.None? && since <= track
      modifies this
      ensures Valid() && old(states) <= states && old(track) <= track
      ensures held ==> now.pc.Done? && EndWritten(now, end, track[|since|..]) && SomeEndWritten(track[|since|..])
    {
      hide Behaviour, MayWrite, WasSubmitted, Fold, ReplayOf, Distinct, Rebuilt, Drive, EndMove, EndedBy, SomeEndWritten;
      ghost var was := Now();
      DriveEnding(c, track, now, NO_CHOICE);
      EndIsMade(c, states, was);
      var moved := MoveFor(end);
      RecordEnd(moved);
      Took(was, NO_CHOICE);
      Others();
      if !held { return; }
      InTail(since, was.track, moved.value.record, track);
      EndWrittenIsSome(now, end, track[|since|..]);
    }

    method FailStep()
      requires Valid() && held && now.pc.FailingStep? && now.attempt.Some? && now.locked
      modifies this
      ensures Valid() && old(states) <= states && old(track) <= track
      ensures held ==> now.pc == Ending(Broke) && now.locked && now.cancelledBy == old(now).cancelledBy
    {
      hide Behaviour, MayWrite, WasSubmitted, Fold, ReplayOf, Distinct, Rebuilt, Drive;
      ghost var was := Now();
      DriveFailingStep(c, track, now, NO_CHOICE);
      var a := now.attempt.value;
      Append(StepFailed(a.step.name, a.number, Keys.Key(c.run, a.step.name, a.number), OwnError(a), a.teardownError));
      now := now.(pc := Ending(Broke));
      Took(was, NO_CHOICE);
      Others();
    }

    /** What an end needs to be written. */
    ghost predicate CanEnd(end: End)
      reads this
    {
      && (end.Broke? || end.AtGate? ==> now.attempt.Some?)
      && (end.AtGate? ==> now.attempt.value.outcome.Answer?)
      && (end.OnlyIfCancelled? ==> now.cancelledBy.Some?)
    }

    /** Take the claim's condition for an end: a cancel taken first wins it. An escalated result is kept first. */
    method TakeCondition(end: End) returns (cancelling: bool)
      requires Valid() && held && now.pc == Closing(end) && CanEnd(end)
      modifies this
      ensures Valid() && old(states) <= states && old(track) <= track
      ensures held && !cancelling ==> now.locked && now.cancelledBy.None?
      ensures held ==> if cancelling then now.pc.CancellingRun? || (now.pc.CancellingStep? && now.attempt.Some?)
                       else now.pc == (if end.Broke? then FailingStep else Ending(end)) && (end.Broke? ==> now.attempt.Some?)
    {
      hide Behaviour, MayWrite, WasSubmitted, Fold, ReplayOf, Distinct, Rebuilt, Drive, PutFor;
      ghost var was := Now();
      DriveClosing(c, track, now, NO_CHOICE);
      cancelling := now.cancelledBy.Some?;
      if cancelling {
        EnterCancel();
      } else {
        if end.AtGate? {
          KeepPayload();
        }
        now := now.(locked := true, pc := if end.Broke? then FailingStep else Ending(end));
      }
      Took(was, NO_CHOICE);
      Others();
    }

    /** `_result`: a payload above the threshold is kept under the attempt's key. */
    method KeepPayload()
      requires now.attempt.Some? && now.attempt.value.outcome.Answer?
      modifies this`payloads
      ensures var put := PutFor(c, now.attempt.value, now.attempt.value.outcome.envelope.payload);
              payloads == if put.Some? then old(payloads)[put.value.0 := put.value.1] else old(payloads)
    {
      var a := now.attempt.value;
      var payload := a.outcome.envelope.payload;
      if |payload| > c.inlineMax {
        payloads := payloads[Keys.Key(c.run, a.step.name, a.number) := payload];
      }
    }

    /** `_keep`, taking the claim's condition: a cancel taken first wins it; a large result is kept by reference. */
    method Keep() returns (kept: bool)
      requires Valid() && held && now.pc.Keeping? && now.attempt.Some? && now.attempt.value.outcome.Answer?
      modifies this
      ensures Valid() && old(states) <= states && old(track) <= track
      ensures kept <==> old(now).cancelledBy.None?
      ensures held ==> if kept then Same(old(now), now) && now.pc.KeepWriting? && now.attempt.value.outcome.Answer?
                       else now.pc.CancellingRun? || (now.pc.CancellingStep? && now.attempt.Some?)
    {
      hide Behaviour, Valid;
      kept := now.cancelledBy.None?;
      if kept {
        KeepResult();
      } else {
        GiveUpResult();
      }
    }

    method KeepResult()
      requires Valid() && held && now.pc.Keeping? && now.attempt.Some? && now.attempt.value.outcome.Answer? && now.cancelledBy.None?
      modifies this
      ensures Valid() && old(states) <= states && old(track) <= track
      ensures held ==> Same(old(now), now) && now.pc.KeepWriting? && now.attempt.value.outcome.Answer?
    {
      hide Behaviour, MayWrite, WasSubmitted, Fold, ReplayOf, Distinct, Rebuilt, Drive, PutFor;
      ghost var was := Now();
      DriveKeeping(c, track, now, NO_CHOICE);
      KeepPayload();
      now := now.(locked := true, pc := KeepWriting);
      Took(was, NO_CHOICE);
      Others();
    }

    method GiveUpResult()
      requires Valid() && held && now.pc.Keeping? && now.attempt.Some? && now.cancelledBy.Some?
      modifies this
      ensures Valid() && old(states) <= states && old(track) <= track
      ensures held ==> now.pc.CancellingRun? || (now.pc.CancellingStep? && now.attempt.Some?)
    {
      hide Behaviour, MayWrite, WasSubmitted, Fold, ReplayOf, Distinct, Rebuilt, Drive, PutFor;
      ghost var was := Now();
      DriveKeeping(c, track, now, NO_CHOICE);
      EnterCancel();
      Took(was, NO_CHOICE);
      Others();
    }

    /** `complete`: record the result; a budget this step reached stops the run at this boundary. */
    method CompleteStep() returns (over: Option<End>)
      requires Valid() && held && now.pc.KeepWriting? && now.attempt.Some? && now.attempt.value.outcome.Answer?
      modifies this
      ensures Valid() && old(states) <= states
      ensures var a := old(now).attempt.value;
              old(track) + [StepCompleted(a.step.name, a.number, a.usage, KeptAs(c, a, a.outcome.envelope.payload), None)] <= track
      ensures over.Some? ==> over.value.OverBudget?
      ensures held ==> now.op == old(now).op && now.i == old(now).i + 1 && now.pc == if over.Some? then Closing(over.value) else AtStep
    {
      hide Behaviour, MayWrite, WasSubmitted, Fold, ReplayOf, Distinct, Rebuilt, Drive;
      ghost var was := Now();
      DriveKeepWriting(c, track, now, NO_CHOICE);
      var a := now.attempt.value;
      over := if now.stop.Some? then Some(OverBudget(now.stop.value, a.step.name)) else None;
      Append(StepCompleted(a.step.name, a.number, a.usage, KeptAs(c, a, a.outcome.envelope.payload), None));
      now := now.(i := now.i + 1, locked := false, pc := if over.Some? then Closing(over.value) else AtStep);
      Took(was, NO_CHOICE);
      Others();
    }

    /** `_keep(complete_approved)`: the step completes with the envelope its approver saw. */
    method CompleteApproved() returns (kept: bool)
      requires Valid() && held && now.pc.Approving? && now.i < |now.op.steps|
      requires now.op.steps[now.i].name in Fold(now.history).approved
      modifies this
      ensures Valid() && old(states) <= states
      ensures old(track) <= track
      ensures kept ==> exists e :: old(track) + [e] <= track && e.StepCompleted? && e.step == old(now).op.steps[old(now).i].name && e.answers.Some?
      ensures held ==> if kept then now.op == old(now).op && now.i == old(now).i + 1 && now.pc.AtStep?
                       else now.pc.CancellingRun? || (now.pc.CancellingStep? && now.attempt.Some?)
    {
      hide Behaviour, MayWrite, WasSubmitted, Fold, ReplayOf, Distinct, Rebuilt, Drive;
      ghost var was := Now();
      DriveApproving(c, track, now, NO_CHOICE);
      var name := now.op.steps[now.i].name;
      var approved := Approved(now.history, name);
      ApprovalsHold(now.history, name);
      kept := now.cancelledBy.None?;
      if kept {
        var seen := approved.value.held.value;
        Append(StepCompleted(name, seen.attempt, seen.usage, seen.result, Some(approved.value.id)));
        now := now.(i := now.i + 1, pc := AtStep);
      } else {
        EnterCancel();
      }
      Took(was, NO_CHOICE);
      Others();
    }

    // ---- Advancing --------------------------------------------------------------------------------

    /** A cancel is taken from here until the run's end is written. */
    method Open() returns (isNew: bool)
      requires Valid() && held && now.pc.Opening? && ReplayOf(now.history).At?
      modifies this
      ensures Valid() && old(states) <= states
      ensures held ==> now.pc == (if isNew then PickingUp else Preparing) && (isNew ==> now.run.state.Submitted?)
    {
      hide Behaviour, MayWrite, WasSubmitted, Fold, ReplayOf, Distinct, Rebuilt, Drive;
      ghost var was := Now();
      DriveOpening(c, track, now, NO_CHOICE);
      var replayed := Replay(now.history);
      isNew := replayed.run.state.Submitted?;
      now := now.(run := replayed.run, accepting := true, pc := if isNew then PickingUp else Preparing);
      Took(was, NO_CHOICE);
      Others();
    }

    method PickUp()
      requires Valid() && held && now.pc.PickingUp? && now.run.state.Submitted?
      modifies this
      ensures Valid() && old(states) <= states
      ensures held ==> now.pc.Preparing?
    {
      hide Behaviour, MayWrite, WasSubmitted, Fold, ReplayOf, Distinct, Rebuilt, OnWalk, OnEnd, OnTeardown,
           OnOutcome, OnWorker;
      ghost var was := Now();
      var moved := Pickup(now.run);
      Append(moved.value.record);
      now := now.(run := moved.value.after, pc := Preparing);
      Took(was, NO_CHOICE);
      Others();
    }

    /** What the pass reads of its history before it walks the Op. */
    method Prepare() returns (accounted: bool)
      requires Valid() && held && now.pc.Preparing?
      modifies this
      ensures Valid() && old(states) <= states
      ensures held ==> now.pc == if accounted then AtStep else Closing(Unaccountable)
    {
      hide Behaviour, MayWrite, WasSubmitted, Fold, ReplayOf, Distinct, Rebuilt, Drive;
      ghost var was := Now();
      DrivePreparing(c, track, now, NO_CHOICE);
      var completed := CompletedSteps(now.history);
      var retries := RetryCount(now.history);
      now := now.(completed := completed, retries := retries, i := 0, pc := AtStep);
      accounted := true;
      if c.budget.Some? {
        var spent := Readers.BudgetTracker(c.budget, now.history);
        accounted := spent.Some?;
        now := if accounted then now.(tracker := spent) else now.(pc := Closing(Unaccountable));
      }
      Took(was, NO_CHOICE);
      Others();
    }

    /** The Track never loses what is on it. */
    twostate lemma Grew()
      requires old(Valid()) && Valid() && old(states) <= states
      ensures old(track) <= track
    {
      hide Behaviour;
      Longer(c, old(states));
      TracksRise(c, states, |old(states)| - 1, |states| - 1);
      assert states[|old(states)| - 1] == old(states)[|old(states)| - 1];
    }

    /** One step the walk reaches: whether the walk goes on. It does not only once the run's end is on the Track. */
    method TakeStep() returns (on: bool)
      requires Valid() && held && now.pc.AtStep? && now.i < |now.op.steps|
      modifies this
      ensures Valid() && old(states) <= states && old(track) <= track
      ensures held ==> if on then now.op == old(now).op && now.i == old(now).i + 1 && now.pc.AtStep?
                       else now.pc.Done? && SomeEndWritten(track[|old(track)|..])
    {
      hide Behaviour, Valid, Fold, SomeEndWritten, EndWritten;
      ghost var since := track;
      var bound := Boundary();
      on := false;
      Grew();
      if !held { return; }
      match bound {
        case Skip => on := true;
        case Close(end) => Finish(end, since);
        case UseApproved =>
          on := CompleteApproved();
          if held && !on {
            EndCancelled(since);
          }
        case Start => on := MakeAttempt(since);
      }
    }

    /** The step is attempted, and what comes of it is kept, or ends the run. */
    method MakeAttempt(ghost since: seq<Event>) returns (on: bool)
      requires Valid() && held && now.pc.Resolving? && now.i < |now.op.steps| && since <= track
      modifies this
      ensures Valid() && old(states) <= states && old(track) <= track
      ensures held ==> if on then now.op == old(now).op && now.i == old(now).i + 1 && now.pc.AtStep?
                       else now.pc.Done? && SomeEndWritten(track[|since|..])
    {
      hide Behaviour, Valid, Fold, SomeEndWritten, EndWritten;
      on := false;
      Resolve();
      Grew();
      if !held { return; }
      RunAttempt();
      Grew();
      if !held { return; }
      var end := Judge();
      Grew();
      if !held { return; }
      if end.Some? {
        Finish(end.value, since);
        return;
      }
      var kept := Keep();
      if !held { return; }
      if !kept {
        EndCancelled(since);
        return;
      }
      var over := CompleteStep();
      if !held { return; }
      on := over.None?;
      if over.Some? {
        Finish(over.value, since);
      }
    }

    /** `_advance`: the order the step functions run in, and every decision between them. It comes back still holding
        the run only once the run's end is on the Track. */
    method Advance()
      requires Valid() && held && now.pc.Opening? && ReplayOf(now.history).At?
      modifies this
      ensures Valid() && old(states) <= states && old(track) <= track
      ensures held ==> now.pc.Done? && SomeEndWritten(track[|old(track)|..])
    {
      hide Behaviour, Valid, ReplayOf, SomeEndWritten, EndWritten;
      ghost var since := track;
      var submitted := Open();
      Grew();
      if !held { return; }
      if submitted {
        PickUp();
        Grew();
        if !held { return; }
      }
      var accounted := Prepare();
      Grew();
      if !held { return; }
      if !accounted {
        Finish(Unaccountable, since);
        return;
      }
      while now.i < |now.op.steps|
        invariant Valid() && old(states) <= states && held && now.pc.AtStep? && since <= track
        decreases |now.op.steps| - now.i
      {
        ghost var before := track;
        var on := TakeStep();
        TailWidens(since, before, track);
        if !held || !on { return; }
      }
      var end := LastBoundary();
      Grew();
      if !held { return; }
      Finish(end, since);
    }

    // ---- The calls --------------------------------------------------------------------------------

    /** What the call reads of the run before it acts, and where that leads it. */
    method GoingFor() returns (going: Going, p: Pass)
      requires now.pc.Reading?
      ensures OnReading(now, track) == Goes(p)
      ensures p.call == now.call
      ensures p.pc == (match going case Nowhere => Done case ToWrite => Writing case ToAdvance => Opening)
      ensures going.ToAdvance? ==> ReplayOf(p.history).At?
      ensures going.ToWrite? ==> Reread(p)
    {
      hide Fold, ReplayOf, HoldsNothing;
      var nowhere := now.(pc := Done);
      var read := now.(history := track);
      var replayed := Replay(track);
      if replayed.Refused? {
        return Nowhere, nowhere;
      }
      if replayed.NeverSubmitted? {
        if now.call.Submit? && track == [] {
          return ToWrite, read.(pc := Writing, op := now.call.op);
        }
        return Nowhere, nowhere;
      }
      var submitted := Views.FirstSubmission(track);
      if submitted.None? {
        return Nowhere, nowhere;
      }
      var known := read.(run := replayed.run, op := submitted.value);
      var state := replayed.run.state;
      match now.call {
        case Submit(op, _) =>
          if op == submitted.value && state.Submitted? {
            return ToAdvance, known.(pc := Opening);
          }
        case RetryRun =>
          if state.Failed? || state.Interrupted? {
            return ToWrite, known.(pc := Writing);
          }
        case DecideRun(outcome, _, _, _) =>
          if state.WaitingAtGate? && !(outcome.Approve? && HoldsNothing(track, replayed.run)) {
            return ToWrite, known.(pc := Writing);
          }
        case HostStart =>
          if state.Running? || state.WaitingAtGate? {
            return ToWrite, known.(pc := Writing);
          }
        case CancelRun(_) => return ToWrite, known.(pc := Writing);
      }
      return Nowhere, nowhere;
    }

    method ReadRun() returns (going: Going)
      requires Valid() && held && now.pc.Reading?
      modifies this
      ensures Valid() && old(states) <= states
      ensures held ==> now.pc == match going case Nowhere => Done case ToWrite => Writing case ToAdvance => Opening
      ensures held && going.ToAdvance? ==> ReplayOf(now.history).At?
      ensures held && going.ToWrite? ==> Reread(now)
    {
      hide Behaviour, MayWrite, WasSubmitted, Fold, ReplayOf, Distinct, Rebuilt, Drive, OnReading;
      ghost var was := Now();
      DriveReading(c, track, now, NO_CHOICE);
      var p;
      going, p := GoingFor();
      now := p;
      Took(was, NO_CHOICE);
      Others();
    }

    /** The move a call records before it advances the run, if the run takes it. */
    method OwnMove() returns (moved: Option<Moved>)
      requires !now.call.Submit?
      ensures moved == CallMove(c, now)
    {
      match now.call {
        case RetryRun => moved := Retry(now.run);
        case DecideRun(outcome, escalation, actor, findings) =>
          moved := Decide(now.run, outcome, escalation, actor, findings, c.reviseLimit);
        case HostStart => moved := HostStopped(now.run);
        case CancelRun(actor) => moved := RunMachine.Cancel(now.run, actor);
      }
    }

    /** `submit`'s own record: the Track refuses a second submission, which a client may have made since. */
    method WriteSubmission() returns (advances: bool)
      requires Valid() && held && now.pc.Writing? && now.call.Submit? && now.history == []
      modifies this
      ensures Valid() && old(states) <= states
      ensures held ==> now.pc == (if advances then Opening else Done) && (advances ==> ReplayOf(now.history).At?)
    {
      hide Behaviour, MayWrite, WasSubmitted, Fold, ReplayOf, Distinct, Rebuilt, Drive;
      ghost var was := Now();
      DriveWriting(c, track, now, NO_CHOICE);
      advances := !WasSubmitted(track);
      if advances {
        Submits(now.call.op, now.call.at);
        Append(OpSubmitted(now.call.op, now.call.at));
        now := now.(pc := Opening);
      } else {
        now := now.(pc := Done);
      }
      Took(was, NO_CHOICE);
      Others();
    }

    /** The record of a retry, a decision, a host's start, or a cancel of a run nothing is advancing. */
    method WriteMove() returns (advances: bool)
      requires Valid() && held && now.pc.Writing? && !now.call.Submit? && ReplayOf(now.history) == At(now.run)
      modifies this
      ensures Valid() && old(states) <= states
      ensures held ==> now.pc == (if advances then Opening else Done) && (advances ==> ReplayOf(now.history).At?)
    {
      hide Behaviour, MayWrite, WasSubmitted, Fold, ReplayOf, Distinct, Rebuilt, Drive, CallMove, OnWriting;
      ghost var was := Now();
      DriveWriting(c, track, now, NO_CHOICE);
      WritesMove(c, now, track);
      var moved := OwnMove();
      advances := Redrives(now.call, moved);
      if advances {
        Redriven(c, now);
      }
      if moved.Some? {
        Append(moved.value.record);
        now := now.(run := moved.value.after);
      }
      now := now.(pc := if advances then Opening else Done);
      Took(was, NO_CHOICE);
      Others();
    }

    /** `_release` */
    method LetGo()
      requires Valid() && held && now.pc.Done?
      modifies this
      ensures Valid() && old(states) <= states && !held && track == old(track)
    {
      hide Behaviour, MayWrite, WasSubmitted, Fold, ReplayOf, Distinct, Rebuilt;
      ghost var was := Now();
      held := false;
      Note(was, Runner.Advance(NO_CHOICE));
    }

    /** One call, from claiming the run to letting it go, unless the host stops first. A run another call holds
        is left alone. */
    method Move(call: Call) returns (busy: bool)
      requires Valid()
      requires call.Submit? ==> Distinct(call.op)
      requires (call.DecideRun? ==> call.by_actor != "") && (call.CancelRun? ==> call.by_actor != "")
      modifies this
      ensures Valid() && old(states) <= states
      ensures busy <==> old(held)
      ensures if busy then Now() == old(Now()) else !held
    {
      hide Behaviour, Valid, ReplayOf, Distinct;
      busy := Acquire(call);
      if busy || !held { return; }
      var going := ReadRun();
      if !held { return; }
      var advances := going.ToAdvance?;
      if going.ToWrite? {
        if now.call.Submit? {
          advances := WriteSubmission();
        } else {
          advances := WriteMove();
        }
        if !held { return; }
      }
      if advances {
        Advance();
        if !held { return; }
      }
      LetGo();
    }

    /** `submit`: an Op that names a step twice is refused before anything is claimed. */
    method Submit(op: Op, at: nat) returns (refused: bool)
      requires Valid()
      modifies this
      ensures Valid() && old(states) <= states
      ensures !Distinct(op) ==> refused && Now() == old(Now())
    {
      hide Behaviour, Valid;
      refused := exists j, k :: 0 <= j < k < |op.steps| && op.steps[j].name == op.steps[k].name;
      if !refused {
        refused := Move(Call.Submit(op, at));
      }
    }

    /** Whatever has been called, and wherever others came between, the Track is a legal history of the machine. */
    lemma TrackIsLegal()
      requires Valid()
      ensures Legal(c, track)
    {
      hide Behaviour, Legal, Fold;
      Longer(c, states);
      RunnerReach.BehaviourKeeps(c, states, |states| - 1);
    }
  }
}
