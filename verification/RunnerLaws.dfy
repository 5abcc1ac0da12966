/** What the runner promises over whole runs: the Track it writes, cancels, workers, payloads and budgets, for
    every interleaving and every crash. */
module RunnerLaws {
  import opened Wrappers
  import opened Budget
  import opened RunMachine
  import opened Ledger
  import opened LedgerSound
  import opened TrackLaws
  import opened Readers
  import opened Runner
  import opened RunnerInv
  import opened RunnerReach
  import Keys

  // ---- The Track --------------------------------------------------------------------------------

  /** Whatever calls, cancels, clients and crashes came, the Track is a legal one, so every Track law holds of
      it; and replaying it never refuses. */
  lemma EveryTrackIsLegal(c: Config, states: seq<State>, k: nat)
    requires Behaviour(c, states) && k < |states|
    ensures Legal(c, states[k].track)
    ensures !ReplayOf(states[k].track).Refused?
  {
    hide Legal, ReplayOf, PassInv, Fold;
    BehaviourKeeps(c, states, k);
    ReplayNeverRefuses(c, states[k].track);
  }

  lemma AcceptingStands(c: Config, b: Book, p: Pass)
    requires PassInv(c, b, p) && p.accepting && !p.pc.PickingUp?
    ensures Moving(b, p)
  {
    hide TeardownAt, LiveAt, UsageAt, Walks, Tally, LetGo;
  }

  /** The run a pass carries, read once and moved as it writes, is at every point what replaying the Track gives,
      whatever clients wrote meanwhile. */
  lemma CarriedRunIsReplayed(c: Config, s: State)
    requires Inv(c, s) && s.claim.Some? && s.claim.value.accepting && !s.claim.value.pc.PickingUp?
    ensures ReplayOf(s.track) == At(s.claim.value.run) && s.claim.value.run.state.Running?
  {
    hide Legal, Fold, PassInv;
    AcceptingStands(c, Fold(s.track), s.claim.value);
    ReplayNeverRefuses(c, s.track);
  }

  /** What an action adds to the Track, if anything. */
  predicate Adds(c: Config, s: State, a: Action, e: Event) {
    match a
    case Advance(ch) => s.claim.Some? && Drive(c, s.track, s.claim.value, ch).event == Some(e)
    case ClientSubmits(op, at) => e == OpSubmitted(op, at)
    case ClientWrites(intent) => e == intent
    case _ => false
  }

  lemma AddsTells(c: Config, s: State, a: Action, e: Event)
    requires Inv(c, s) && Enabled(c, s, a) && Adds(c, s, a, e)
    ensures Do(c, s, a).track == s.track + [e]
    ensures a.Advance? ==> !s.claim.value.pc.Done? && !s.claim.value.pc.Reading? && WritesAs(s.claim.value, e)
    ensures a.Advance? || IsIntent(e) || e.OpSubmitted?
  {
    hide Legal, Fold, PassInv, Drive, WasSubmitted, ReplayOf, CancelRequestOf;
    if a.Advance? {
      var p := s.claim.value;
      if p.pc.Done? {
        DoneReleases(c, s.track, p, a.choice);
      } else if p.pc.Reading? {
        ReadingTells(c, s.track, p, a.choice);
      } else {
        DriveTells(c, s.track, p, a.choice);
      }
    }
  }

  lemma WritingIsFresh(c: Config, b: Book, p: Pass)
    requires PassInv(c, b, p) && p.pc.Writing?
    ensures Fresh(p)
  {
  }

  /** A run is recorded interrupted only by a host's start that holds the run's claim and is not advancing it:
      never while another call is moving it. And only a call that holds the claim moves a run at all. */
  lemma OnlyAStartInterrupts(c: Config, s: State, a: Action, e: Event)
    requires Inv(c, s) && Enabled(c, s, a) && Adds(c, s, a, e)
    ensures e.RunInterrupted? ==> a.Advance? && s.claim.value.call.HostStart? && !s.claim.value.accepting
    ensures !IsFact(e) && !e.OpSubmitted? ==> a.Advance? && s.claim.Some?
  {
    hide Legal, Fold, PassInv, Drive, WasSubmitted, MayWrite;
    AddsTells(c, s, a, e);
    if e.RunInterrupted? {
      WritingIsFresh(c, Fold(s.track), s.claim.value);
    }
  }

  // ---- Cancels ----------------------------------------------------------------------------------

  /** The results and ends of a pass other than `cancelled`. */
  predicate IsResult(e: Event) {
    e.StepCompleted? || e.GateEscalated? || e.RunCompleted? || e.RunFailed? || e.BudgetStopped?
  }

  predicate IsEnd(e: Event) {
    e.GateEscalated? || e.RunCompleted? || e.RunFailed? || e.BudgetStopped? || e.RunCancelled?
  }

  lemma CancelledWritesNoResult(c: Config, b: Book, p: Pass, e: Event)
    requires PassInv(c, b, p) && p.cancelledBy.Some? && WritesAs(p, e)
    ensures !IsResult(e)
  {
    hide TeardownAt, LiveAt, UsageAt, Walks, Tally, LetGo;
  }

  lemma CancelledEndsCancelled(c: Config, track: seq<Event>, p: Pass, ch: Choice)
    requires PassInv(c, Fold(track), p) && HistoryInv(c, Fold(track), p) && p.cancelledBy.Some? && !p.pc.Done?
    requires AtEnd(p.pc) || AtBoundary(p.pc) || BeforeSteps(p.pc)
    ensures var f := Drive(c, track, p, ch);
            f.pass.Some? && f.pass.value.pc.Done? ==> f.event == Some(RunCancelled(p.cancelledBy.value))
  {
    hide Legal, Fold, TeardownAt, LiveAt, UsageAt, Walks, Tally, LetGo, Rebuilt, Check;
  }

  lemma AttemptNotDone(c: Config, track: seq<Event>, p: Pass, ch: Choice)
    requires PassInv(c, Fold(track), p) && !AtEnd(p.pc) && !AtBoundary(p.pc) && !BeforeSteps(p.pc)
    ensures Drive(c, track, p, ch).pass.Some? ==> !Drive(c, track, p, ch).pass.value.pc.Done?
  {
    hide Fold, TeardownAt, LiveAt, UsageAt, Walks, Tally, LetGo, Check, Evaluate;
  }

  ghost predicate SamePass(s: State, s': State) {
    s.claim.Some? && s'.claim.Some? && s.claim.value.id == s'.claim.value.id
  }

  /** One step of a cancelled pass: whoever asked stands, no result is written, and it is over only by writing
      `cancelled`. */
  lemma CancelledStep(c: Config, s: State, a: Action)
    requires Inv(c, s) && Enabled(c, s, a) && SamePass(s, Do(c, s, a)) && s.claim.value.cancelledBy.Some?
    ensures var s' := Do(c, s, a);
            && s'.claim.value.cancelledBy == s.claim.value.cancelledBy
            && s.track <= s'.track
            && (forall m :: |s.track| <= m < |s'.track| ==> !IsResult(s'.track[m]))
            && (s'.claim.value.pc.Done? && !s.claim.value.pc.Done? ==>
                  s'.track == s.track + [RunCancelled(s.claim.value.cancelledBy.value)])
  {
    hide Legal, Fold, PassInv, Drive, WasSubmitted, ReplayOf, CancelRequestOf;
    if a.Advance? {
      var p := s.claim.value;
      if p.pc.Done? {
        DoneReleases(c, s.track, p, a.choice);
      } else if p.pc.Reading? {
        ReadingIsFresh(c, Fold(s.track), p);
      } else {
        DriveTells(c, s.track, p, a.choice);
        var f := Drive(c, s.track, p, a.choice);
        if f.event.Some? {
          CancelledWritesNoResult(c, Fold(s.track), p, f.event.value);
        }
        if AtEnd(p.pc) || AtBoundary(p.pc) || BeforeSteps(p.pc) {
          CancelledEndsCancelled(c, s.track, p, a.choice);
        } else {
          AttemptNotDone(c, s.track, p, a.choice);
        }
      }
    }
  }

  lemma ReadingIsFresh(c: Config, b: Book, p: Pass)
    requires PassInv(c, b, p) && p.pc.Reading?
    ensures Fresh(p)
  {
  }

  lemma IdsRise(c: Config, s: State, a: Action)
    requires Enabled(c, s, a)
    ensures s.claims <= Do(c, s, a).claims
    ensures a.Acquire? ==> Do(c, s, a).claim.value.id == s.claims
  {
    hide WasSubmitted, MayWrite, Drive;
  }

  lemma OneStep(c: Config, states: seq<State>, k: nat) returns (a: Action)
    requires Behaviour(c, states) && k + 1 < |states|
    ensures Enabled(c, states[k], a) && states[k + 1] == Do(c, states[k], a)
    ensures Inv(c, states[k]) && Inv(c, states[k + 1])
  {
    hide Inv, Enabled;
    BehaviourKeeps(c, states, k);
    BehaviourKeeps(c, states, k + 1);
    assert StepAt(c, states, k);
    a :| Enabled(c, states[k], a) && states[k + 1] == Do(c, states[k], a);
  }

  lemma DoKeepsId(c: Config, s: State, a: Action)
    requires Inv(c, s) && Enabled(c, s, a) && Do(c, s, a).claim.Some?
    ensures a.Acquire? || (s.claim.Some? && s.claim.value.id == Do(c, s, a).claim.value.id)
  {
    hide Legal, Fold, PassInv, Drive, WasSubmitted, MayWrite;
    if a.Advance? {
      var p := s.claim.value;
      if p.pc.Done? {
        DoneReleases(c, s.track, p, a.choice);
      } else if p.pc.Reading? {
        ReadingTells(c, s.track, p, a.choice);
      } else {
        DriveTells(c, s.track, p, a.choice);
      }
    }
  }

  lemma {:induction false} ClaimsRise(c: Config, states: seq<State>, i: nat, j: nat)
    requires Behaviour(c, states) && i <= j < |states|
    ensures states[i].claims <= states[j].claims
    decreases j
  {
    hide Inv, Enabled, Do, Behaviour;
    if i < j {
      ClaimsRise(c, states, i, j - 1);
      var a := OneStep(c, states, j - 1);
      IdsRise(c, states[j - 1], a);
    }
  }

  /** A claim seen twice was held all the while between. */
  lemma HeldBetween(c: Config, states: seq<State>, i: nat, j: nat)
    requires Behaviour(c, states) && i < j < |states| && SamePass(states[i], states[j])
    ensures SamePass(states[i], states[j - 1])
  {
    hide Enabled, Do, Behaviour, Legal, PassInv, Fold;
    var a := OneStep(c, states, j - 1);
    DoKeepsId(c, states[j - 1], a);
    IdsRise(c, states[j - 1], a);
    ClaimsRise(c, states, i, j - 1);
    BehaviourKeeps(c, states, i);
  }

  /** Once a cancel is accepted, the pass writes no later result and no end but `cancelled`, naming who asked,
      and is over only by writing it. */
  lemma {:induction false} AcceptedCancelDecides(c: Config, states: seq<State>, i: nat, j: nat)
    requires Behaviour(c, states) && i <= j < |states| && SamePass(states[i], states[j])
    requires states[i].claim.value.cancelledBy.Some? && !states[i].claim.value.pc.Done?
    ensures var actor := states[i].claim.value.cancelledBy.value;
            && states[j].claim.value.cancelledBy == Some(actor)
            && states[i].track <= states[j].track
            && (forall m :: |states[i].track| <= m < |states[j].track| ==> !IsResult(states[j].track[m]))
            && (states[j].claim.value.pc.Done? ==> RunCancelled(actor) in states[j].track[|states[i].track|..])
    decreases j
  {
    hide Inv, Enabled, Do, Behaviour;
    if i < j {
      HeldBetween(c, states, i, j);
      AcceptedCancelDecides(c, states, i, j - 1);
      var a := OneStep(c, states, j - 1);
      CancelledStep(c, states[j - 1], a);
      var n := |states[i].track|;
      if states[j].claim.value.pc.Done? {
        if states[j - 1].claim.value.pc.Done? {
          assert states[j - 1].track[n..] <= states[j].track[n..];
        } else {
          assert states[j].track[n..] == states[j - 1].track[n..] + [RunCancelled(states[i].claim.value.cancelledBy.value)];
        }
      }
    }
  }

  /** Writing an end is the last thing a pass does. */
  lemma EndIsLast(c: Config, track: seq<Event>, p: Pass, ch: Choice, e: Event)
    requires Drive(c, track, p, ch).event == Some(e) && IsEnd(e) && WritesAs(p, e)
    ensures Drive(c, track, p, ch).pass.Some? && Drive(c, track, p, ch).pass.value.pc.Done?
  {
    hide WasSubmitted;
  }

  lemma WalkingOn(c: Config, track: seq<Event>, p: Pass, ch: Choice)
    requires PassInv(c, Fold(track), p) && HistoryInv(c, Fold(track), p) && p.accepting && Sound(c, Fold(track))
    requires AtBoundary(p.pc) || BeforeSteps(p.pc)
    ensures Drive(c, track, p, ch).pass.Some? && !Drive(c, track, p, ch).pass.value.pc.Done?
  {
    hide Legal, Fold, TeardownAt, LiveAt, UsageAt, Walks, Tally, LetGo, Rebuilt, Check, OnTeardown, OnWorker, OnOutcome,
         OnEnd, Keys.Key, EndInv, AttemptInv, Tracked;
  }

  lemma DoneByEnding(c: Config, track: seq<Event>, p: Pass, ch: Choice)
    requires PassInv(c, Fold(track), p) && p.accepting && !p.pc.Done? && AtEnd(p.pc)
    ensures var f := Drive(c, track, p, ch);
            f.pass.Some? && f.pass.value.pc.Done? ==> f.event.Some? && IsEnd(f.event.value)
  {
    hide Legal, Fold, TeardownAt, LiveAt, UsageAt, Walks, Tally, LetGo, OnCall, OnWalk, OnTeardown, OnWorker,
         EscalationId, KeptAs, PutFor, Keys.Key, CallInv, StepInv, AttemptInv, Tracked, Distinct;
  }

  /** A pass that has begun to advance a run lets it go only by writing an end, unless the host stops: it never
      just gives up, whatever the executor and the worker did. */
  lemma AdvancingEndsByWriting(c: Config, s: State, a: Action)
    requires Inv(c, s) && Enabled(c, s, a) && SamePass(s, Do(c, s, a))
    requires s.claim.value.accepting && !s.claim.value.pc.Done? && Do(c, s, a).claim.value.pc.Done?
    ensures exists e :: IsEnd(e) && Do(c, s, a).track == s.track + [e]
  {
    hide Legal, Fold, PassInv, Drive, WasSubmitted, MayWrite, IsEnd;
    var p := s.claim.value;
    LegalSound(c, s.track, |s.track|);
    assert s.track[..|s.track|] == s.track;
    if AtEnd(p.pc) {
      DoneByEnding(c, s.track, p, a.choice);
    } else if AtBoundary(p.pc) || BeforeSteps(p.pc) {
      WalkingOn(c, s.track, p, a.choice);
    } else {
      AttemptNotDone(c, s.track, p, a.choice);
    }
  }

  lemma DoneAcceptsNone(c: Config, b: Book, p: Pass)
    requires PassInv(c, b, p) && p.pc.Done?
    ensures !p.accepting
  {
  }

  /** Once a pass has written its end, no cancel of it is accepted and it writes nothing more. */
  lemma AfterTheEnd(c: Config, s: State, a: Action)
    requires Inv(c, s) && Enabled(c, s, a) && SamePass(s, Do(c, s, a)) && s.claim.value.pc.Done?
    ensures !a.AcceptCancel?
    ensures Do(c, s, a).claim.value.pc.Done? && Do(c, s, a).claim.value.cancelledBy == s.claim.value.cancelledBy
    ensures Do(c, s, a).track != s.track ==> a.ClientWrites? || a.ClientSubmits?
  {
    hide Legal, Fold, PassInv, Drive, WasSubmitted, MayWrite;
    DoneAcceptsNone(c, Fold(s.track), s.claim.value);
    if a.Advance? {
      DoneReleases(c, s.track, s.claim.value, a.choice);
    }
  }

  // ---- Workers ----------------------------------------------------------------------------------

  /** Whoever claims a worker's teardown claims it alone: the executor is called once for it, and a second time
      only by the driver after a cancel's own call raised; and never before it is claimed. */
  lemma TeardownIsClaimedOnce(c: Config, b: Book, p: Pass)
    requires PassInv(c, b, p) && p.attempt.Some?
    ensures Shape(p.attempt.value.torn) && (p.attempt.value.torn != [] ==> p.attempt.value.released)
    ensures p.attempt.value.cancelTeardown.Asked? ==> p.attempt.value.torn == [] && p.attempt.value.released
  {
    hide LiveAt, UsageAt, Walks, Tally;
  }

  lemma {:induction false} FailureSeen(c: Config, t: seq<Event>, k: nat)
    requires Legal(c, t) && k <= |t|
    requires Fold(t[..k]).flight.Some? && Fold(t[..k]).flight.value.failed.Some?
    ensures exists m :: 0 <= m < k && t[m].StepFailed? && t[m].step == Fold(t[..k]).flight.value.step
              && t[m].attempt == Fold(t[..k]).flight.value.number && t[m].leaked == Fold(t[..k]).flight.value.failed.value
  {
    hide Legal, Fold, Post, Allowed, Sound;
    if k == 0 {
      NothingFlies(t);
    } else {
      OneEvent(c, t, k - 1);
      FailedPost(c, Fold(t[..k - 1]), CancelRequestOf(t[..k - 1]), t[k - 1]);
      if !t[k - 1].StepFailed? {
        FailureSeen(c, t, k - 1);
      }
    }
  }

  lemma NothingFlies(t: seq<Event>)
    ensures Fold(t[..0]).flight.None?
  {
    assert t[..0] == [];
  }

  lemma FailedPost(c: Config, b: Book, asked: Option<string>, e: Event)
    requires Allowed(c, b, asked, e) && Post(b, e).flight.Some? && Post(b, e).flight.value.failed.Some?
    ensures var f := Post(b, e).flight.value;
            if e.StepFailed? then f.step == e.step && f.number == e.attempt && f.failed == Some(e.leaked)
            else b.flight.Some? && b.flight.value.step == f.step && b.flight.value.number == f.number
                 && b.flight.value.failed == f.failed
  {
    hide Affordable, Tally;
  }

  /** What ends a step or the run, or starts the next. */
  predicate MovesOn(e: Event) {
    IsEnd(e) || e.StepStarted? || e.StepCompleted?
  }

  ghost predicate LeakIsFlown(b: Book, a: Attempt) {
    a.teardownError ==> b.flight.Some? && b.flight.value.step == a.step.name && b.flight.value.number == a.number
                        && b.flight.value.failed == Some(true)
  }

  lemma MovingOnLetsGo(c: Config, b: Book, p: Pass, e: Event)
    requires PassInv(c, b, p) && WritesAs(p, e) && MovesOn(e) && p.attempt.Some?
    ensures LetGo(p.attempt.value) && LeakIsFlown(b, p.attempt.value)
    ensures p.attempt.value.teardownError ==> e.RunFailed? || e.RunCancelled?
  {
    hide LiveAt, UsageAt, TeardownAt, Walks, Tally;
  }

  /** Before a step's result, the next step's start or the run's end is written, the last attempt's worker has
      been torn down, and its teardown has returned; or it raised, the run ends failed or cancelled, and a
      `step_failed` naming the leaked worker stands on the Track. */
  lemma WorkerGoneBeforeMovingOn(c: Config, s: State, ch: Choice, e: Event)
    requires Inv(c, s) && Enabled(c, s, Advance(ch)) && Adds(c, s, Advance(ch), e)
    requires MovesOn(e) && s.claim.value.attempt.Some?
    ensures var a := s.claim.value.attempt.value;
            && (a.worker ==> a.torn != [] && a.released && !a.cancelTeardown.Asked? && a.torn[|a.torn| - 1].raised == a.teardownError)
            && (a.teardownError ==>
                  && (e.RunFailed? || e.RunCancelled?)
                  && exists m :: 0 <= m < |s.track| && s.track[m].StepFailed? && s.track[m].step == a.step.name
                       && s.track[m].attempt == a.number && s.track[m].leaked)
  {
    hide Legal, Fold, PassInv, Drive, WritesAs, MovesOn, WasSubmitted, MayWrite;
    AddsTells(c, s, Advance(ch), e);
    MovingOnLetsGo(c, Fold(s.track), s.claim.value, e);
    if s.claim.value.attempt.value.teardownError {
      assert s.track[..|s.track|] == s.track;
      FailureSeen(c, s.track, |s.track|);
    }
  }

  // ---- Payloads kept by reference ---------------------------------------------------------------

  /** The reference an event names its result by, if it does. */
  function RefOf(e: Event): Option<string> {
    match e
    case StepCompleted(_, _, _, ByRef(key), _) => Some(key)
    case GateEscalated(_, _, Some(Held(_, _, ByRef(key), _))) => Some(key)
    case _ => None
  }

  lemma RefNames(c: Config, b: Book, asked: Option<string>, e: Event)
    requires Sound(c, b) && Allowed(c, b, asked, e) && RefOf(e).Some?
    ensures e.StepCompleted? || e.GateEscalated?
    ensures e.StepCompleted? ==> RefOf(e).value == Keys.Key(c.run, e.step, e.attempt) && e.step in Post(b, e).completed
    ensures e.GateEscalated? ==> RefOf(e).value == Keys.Key(c.run, e.step, e.held.value.attempt)
                                 && e.held.value.attempt < Number(Post(b, e), e.step)
  {
    if e.GateEscalated? {
      EscalatedIs(c, b, asked, e);
    } else {
      PostCompleted(b, e);
    }
  }

  /** No attempt that can still be made, or is in flight, has the key an earlier result is kept under. */
  lemma KeptKeyIsSpent(c: Config, t: seq<Event>, m: nat, step: string)
    requires Legal(c, t) && m < |t| && RefOf(t[m]).Some? && step !in Fold(t).completed
    ensures RefOf(t[m]).value != Keys.Key(c.run, step, Number(Fold(t), step))
  {
    hide Legal, Fold, Post, Allowed, Sound, Number, Keys.Key;
    OneEvent(c, t, m);
    RefNames(c, Fold(t[..m]), CancelRequestOf(t[..m]), t[m]);
    Grows(c, t, m + 1, |t|);
    assert t[..|t|] == t;
    if RefOf(t[m]).value == Keys.Key(c.run, step, Number(Fold(t), step)) {
      Keys.KeyInjective(c.run, t[m].step, if t[m].StepCompleted? then t[m].attempt else t[m].held.value.attempt,
                        c.run, step, Number(Fold(t), step));
    }
  }

  /** A result about to be named by reference has been kept under that reference. */
  ghost predicate PutFirst(c: Config, p: Pass, payloads: map<string, string>) {
    (p.pc.KeepWriting? || p.pc == Ending(AtGate)) && p.attempt.Some? && p.attempt.value.outcome.Answer? ==>
      var a := p.attempt.value;
      PutFor(c, a, a.outcome.envelope.payload).Some? ==>
        var kept := PutFor(c, a, a.outcome.envelope.payload).value;
        kept.0 in payloads && payloads[kept.0] == kept.1
  }

  predicate KeptFor(e: Event, payloads: map<string, string>) {
    RefOf(e).Some? ==>
      && RefOf(e).value in payloads
      && (e.GateEscalated? ==> payloads[RefOf(e).value] == e.held.value.shown)
  }

  /** Every result named by reference is kept, and an escalated one is the payload its approver is shown. */
  ghost predicate PayloadInv(c: Config, s: State) {
    && (forall m :: 0 <= m < |s.track| ==> KeptFor(s.track[m], s.payloads))
    && (s.claim.Some? ==> PutFirst(c, s.claim.value, s.payloads))
  }

  lemma PutIsNew(c: Config, b: Book, track: seq<Event>, p: Pass, ch: Choice)
    requires PassInv(c, b, p) && Sound(c, b) && Drive(c, track, p, ch).put.Some?
    requires p.pc.Keeping? || p.pc == Closing(AtGate)
    ensures exists step :: step !in b.completed && Drive(c, track, p, ch).put.value.0 == Keys.Key(c.run, step, Number(b, step))
  {
    hide OnCall, OnWalk, OnTeardown, OnWorker, Between, CallInv, StepInv, AttemptInv, LiveAt, UsageAt, TeardownAt,
         Walks, Tally, LetGo, Keys.Key;
    NextNotCompleted(b, p.attempt.value.step.name);
    assert p.attempt.value.step.name !in b.completed;
  }

  lemma ReferenceWasPut(c: Config, b: Book, track: seq<Event>, p: Pass, ch: Choice, payloads: map<string, string>, e: Event)
    requires PassInv(c, b, p) && Sound(c, b) && PutFirst(c, p, payloads)
    requires Drive(c, track, p, ch).event == Some(e) && (p.pc.KeepWriting? || p.pc == Ending(AtGate))
    ensures KeptFor(e, payloads)
  {
    hide LiveAt, UsageAt, TeardownAt, Walks, Tally, LetGo, Keys.Key;
  }

  lemma PutsFirst(c: Config, track: seq<Event>, p: Pass, ch: Choice, payloads: map<string, string>)
    requires p.pc.Keeping? || p.pc == Closing(AtGate)
    ensures var f := Drive(c, track, p, ch);
            f.pass.Some? ==>
              PutFirst(c, f.pass.value, if f.put.Some? then payloads[f.put.value.0 := f.put.value.1] else payloads)
  {
    hide Keys.Key;
  }

  /** `complete_approved` names what its escalation was kept under. */
  lemma ApprovedWasKept(c: Config, track: seq<Event>, e: Event, payloads: map<string, string>)
    requires Legal(c, track) && Allowed(c, Fold(track), CancelRequestOf(track), e)
    requires e.StepCompleted? && e.answers.Some?
    requires forall m :: 0 <= m < |track| ==> KeptFor(track[m], payloads)
    ensures KeptFor(e, payloads)
  {
    hide Legal, Fold;
    assert track[..|track|] == track;
    EscalatedSeenHere(c, track, e);
  }

  lemma EscalatedSeenHere(c: Config, track: seq<Event>, e: Event)
    requires Legal(c, track) && Allowed(c, Fold(track), CancelRequestOf(track), e)
    requires e.StepCompleted? && e.answers.Some?
    ensures exists m :: 0 <= m < |track| && track[m].GateEscalated? && track[m].held.Some? && track[m].held.value.result == e.result
  {
    hide Legal, Fold;
    LegalSound(c, track, |track|);
    assert track[..|track|] == track;
    var b := Fold(track);
    assert e.step in b.approved && b.escalated[e.step] == b.approved[e.step];
    EscalatedSeen(track, |track|, e.step);
  }

  /** A put, at a key no earlier result has, leaves every kept result as it was. */
  lemma PutKeeps(c: Config, s: State, ch: Choice, m: nat)
    requires Inv(c, s) && Enabled(c, s, Advance(ch)) && PayloadInv(c, s)
    requires Drive(c, s.track, s.claim.value, ch).put.Some? && m < |s.track| && RefOf(s.track[m]).Some?
    ensures Drive(c, s.track, s.claim.value, ch).put.value.0 != RefOf(s.track[m]).value
  {
    hide Legal, Fold, PassInv, Drive, KeptFor, Keys.Key, Number, RefOf;
    var p := s.claim.value;
    if p.pc.Done? {
      DoneReleases(c, s.track, p, ch);
    } else if p.pc.Reading? {
      ReadingTells(c, s.track, p, ch);
    } else {
      DriveTells(c, s.track, p, ch);
      LegalSound(c, s.track, |s.track|);
      assert s.track[..|s.track|] == s.track;
      PutIsNew(c, Fold(s.track), s.track, p, ch);
      var step :| step !in Fold(s.track).completed
                  && Drive(c, s.track, p, ch).put.value.0 == Keys.Key(c.run, step, Number(Fold(s.track), step));
      KeptKeyIsSpent(c, s.track, m, step);
    }
  }

  lemma AdvanceKeepsPayloads(c: Config, s: State, ch: Choice)
    requires Inv(c, s) && Enabled(c, s, Advance(ch)) && PayloadInv(c, s)
    ensures PayloadInv(c, Do(c, s, Advance(ch)))
    ensures forall m :: 0 <= m < |s.track| && RefOf(s.track[m]).Some? ==>
              Do(c, s, Advance(ch)).payloads[RefOf(s.track[m]).value] == s.payloads[RefOf(s.track[m]).value]
  {
    hide Legal, Fold, PassInv, Drive, PutFirst, WritesAs, RefOf, Allowed, Post;
    var p, f := s.claim.value, Drive(c, s.track, s.claim.value, ch);
    var s' := Do(c, s, Advance(ch));
    forall m | 0 <= m < |s.track|
      ensures KeptFor(s.track[m], s'.payloads)
      ensures RefOf(s.track[m]).Some? ==> s'.payloads[RefOf(s.track[m]).value] == s.payloads[RefOf(s.track[m]).value]
    {
      assert KeptFor(s.track[m], s.payloads);
      if f.put.Some? && RefOf(s.track[m]).Some? {
        PutKeeps(c, s, ch, m);
      }
    }
    if p.pc.Done? {
      DoneReleases(c, s.track, p, ch);
    } else if p.pc.Reading? {
      ReadingTells(c, s.track, p, ch);
      NotAboutToName(c, f.pass.value, s.payloads, p, f);
    } else {
      DriveTells(c, s.track, p, ch);
      if p.pc.Keeping? || p.pc == Closing(AtGate) {
        PutsFirst(c, s.track, p, ch, s.payloads);
      } else {
        NotAboutToName(c, f.pass.value, s.payloads, p, f);
      }
      if f.event.Some? {
        WrittenIsKept(c, s, ch, f.event.value);
      }
    }
  }

  lemma NotAboutToName(c: Config, p': Pass, payloads: map<string, string>, p: Pass, f: Effect)
    requires f.pass == Some(p') && ((Tells(p, f) && !p.pc.Keeping? && p.pc != Closing(AtGate)) || !AtEnd(p'.pc) || p'.pc.Done?)
    ensures PutFirst(c, p', payloads)
  {
    hide WritesAs, PutFor;
  }

  lemma NamesNothing(e: Event)
    requires !e.StepCompleted? && !e.GateEscalated?
    ensures RefOf(e).None?
  {
  }

  lemma WrittenIsKept(c: Config, s: State, ch: Choice, e: Event)
    requires Inv(c, s) && Enabled(c, s, Advance(ch)) && PayloadInv(c, s) && Adds(c, s, Advance(ch), e)
    ensures KeptFor(e, Do(c, s, Advance(ch)).payloads)
  {
    hide Legal, Fold, PassInv, Drive, PutFirst, RefOf, Allowed, Post, WasSubmitted, MayWrite;
    var p := s.claim.value;
    AddsTells(c, s, Advance(ch), e);
    DriveTells(c, s.track, p, ch);
    LegalSound(c, s.track, |s.track|);
    assert s.track[..|s.track|] == s.track;
    if p.pc.KeepWriting? || p.pc == Ending(AtGate) {
      ReferenceWasPut(c, Fold(s.track), s.track, p, ch, s.payloads, e);
    } else if p.pc.Approving? {
      DriveKeeps(c, s.track, p, ch);
      ApprovingAnswers(c, s.track, p, ch, e);
      ApprovedWasKept(c, s.track, e, s.payloads);
    } else {
      NamesNothing(e);
    }
  }

  lemma ApprovingAnswers(c: Config, track: seq<Event>, p: Pass, ch: Choice, e: Event)
    requires p.pc.Approving? && Drive(c, track, p, ch).event == Some(e)
    ensures e.StepCompleted? && e.answers.Some?
  {
    hide Fold;
  }

  /** A result's reference is a key of this run, and no other run's. */
  lemma ReferenceIsOurs(c: Config, t: seq<Event>, m: nat, run: string, step: string, number: nat)
    requires Legal(c, t) && m < |t| && RefOf(t[m]).Some? && run != c.run
    ensures RefOf(t[m]).value != Keys.Key(run, step, number)
  {
    hide Legal, Fold, Post, Allowed, Sound, Keys.Key;
    OneEvent(c, t, m);
    RefNames(c, Fold(t[..m]), CancelRequestOf(t[..m]), t[m]);
    if RefOf(t[m]).value == Keys.Key(run, step, number) {
      Keys.KeyInjective(c.run, t[m].step, if t[m].StepCompleted? then t[m].attempt else t[m].held.value.attempt, run, step, number);
    }
  }

  lemma PutIsOurs(c: Config, a: Attempt, payload: string, run: string, step: string, number: nat)
    requires PutFor(c, a, payload).Some? && run != c.run
    ensures PutFor(c, a, payload).value.0 != Keys.Key(run, step, number)
  {
    hide Keys.Key;
    if Keys.Key(c.run, a.step.name, a.number) == Keys.Key(run, step, number) {
      Keys.KeyInjective(c.run, a.step.name, a.number, run, step, number);
    }
  }

  /** What another run keeps is under that run's keys. */
  lemma OtherRunsKeepPayloads(c: Config, s: State, a: Action)
    requires Inv(c, s) && Enabled(c, s, a) && PayloadInv(c, s) && a.OtherRunKeeps?
    ensures PayloadInv(c, Do(c, s, a))
    ensures forall m :: 0 <= m < |s.track| && RefOf(s.track[m]).Some? ==>
              Do(c, s, a).payloads[RefOf(s.track[m]).value] == s.payloads[RefOf(s.track[m]).value]
  {
    hide Legal, Fold, PassInv, PutFor, Keys.Key, RefOf;
    var s' := Do(c, s, a);
    forall m | 0 <= m < |s.track|
      ensures KeptFor(s.track[m], s'.payloads)
      ensures RefOf(s.track[m]).Some? ==> s'.payloads[RefOf(s.track[m]).value] == s.payloads[RefOf(s.track[m]).value]
    {
      assert KeptFor(s.track[m], s.payloads);
      if RefOf(s.track[m]).Some? {
        ReferenceIsOurs(c, s.track, m, a.run, a.step, a.number);
      }
    }
    if s.claim.Some? && s.claim.value.attempt.Some? && s.claim.value.attempt.value.outcome.Answer? {
      var payload := s.claim.value.attempt.value.outcome.envelope.payload;
      if PutFor(c, s.claim.value.attempt.value, payload).Some? {
        PutIsOurs(c, s.claim.value.attempt.value, payload, a.run, a.step, a.number);
      }
    }
  }

  lemma OthersKeepPayloads(c: Config, s: State, a: Action)
    requires Inv(c, s) && Enabled(c, s, a) && PayloadInv(c, s) && !a.Advance? && !a.OtherRunKeeps?
    ensures PayloadInv(c, Do(c, s, a))
    ensures Do(c, s, a).payloads == s.payloads
  {
    hide Legal, Fold, PassInv, WasSubmitted, ReplayOf, CancelRequestOf, PutFor;
    if a.AcceptCancel? || a.CancelTeardownReturns? || a.Acquire? {
      OthersPutFirst(c, s, a);
    }
    var s' := Do(c, s, a);
    forall m | 0 <= m < |s'.track| ensures KeptFor(s'.track[m], s'.payloads) {
      if m < |s.track| {
        assert s'.track[m] == s.track[m];
        assert KeptFor(s.track[m], s.payloads);
      } else {
        NamesNothing(s'.track[m]);
      }
    }
  }

  lemma OthersPutFirst(c: Config, s: State, a: Action)
    requires Inv(c, s) && Enabled(c, s, a) && PayloadInv(c, s) && (a.AcceptCancel? || a.CancelTeardownReturns? || a.Acquire?)
    ensures Do(c, s, a).claim.Some? && PutFirst(c, Do(c, s, a).claim.value, s.payloads)
  {
    hide Legal, Fold, PassInv, KeptFor, RefOf;
  }

  lemma {:induction false} PayloadsKept(c: Config, states: seq<State>, k: nat)
    requires Behaviour(c, states) && k < |states|
    ensures PayloadInv(c, states[k])
  {
    hide Inv, Enabled, PayloadInv, Do;
    if k == 0 {
      StartKeepsPayloads(c);
    } else {
      PayloadsKept(c, states, k - 1);
      var a := OneStep(c, states, k - 1);
      if a.Advance? {
        AdvanceKeepsPayloads(c, states[k - 1], a.choice);
      } else if a.OtherRunKeeps? {
        OtherRunsKeepPayloads(c, states[k - 1], a);
      } else {
        OthersKeepPayloads(c, states[k - 1], a);
      }
    }
  }

  lemma StartKeepsPayloads(c: Config)
    ensures PayloadInv(c, START)
  {
  }

  lemma TrackGrows(c: Config, s: State, a: Action)
    requires Inv(c, s) && Enabled(c, s, a)
    ensures s.track <= Do(c, s, a).track
  {
    hide Legal, Fold, PassInv, Drive, WasSubmitted, MayWrite;
  }

  /** A payload kept by reference is there from the moment an event names it, an escalated one is what its
      approver is shown, and no later attempt, crash or retry ever overwrites it. */
  lemma {:induction false} PayloadNeverOverwritten(c: Config, states: seq<State>, i: nat, j: nat, m: nat)
    requires Behaviour(c, states) && i <= j < |states| && m < |states[i].track| && RefOf(states[i].track[m]).Some?
    ensures states[i].track <= states[j].track
    ensures var e := states[i].track[m];
            && KeptFor(e, states[i].payloads) && KeptFor(e, states[j].payloads)
            && states[j].payloads[RefOf(e).value] == states[i].payloads[RefOf(e).value]
    decreases j
  {
    hide Inv, Enabled, Do, Behaviour, RefOf;
    PayloadsKept(c, states, i);
    PayloadsKept(c, states, j);
    if i < j {
      PayloadNeverOverwritten(c, states, i, j - 1, m);
      PayloadsKept(c, states, j - 1);
      var a := OneStep(c, states, j - 1);
      TrackGrows(c, states[j - 1], a);
      assert states[j - 1].track[m] == states[i].track[m];
      if a.Advance? {
        AdvanceKeepsPayloads(c, states[j - 1], a.choice);
      } else if a.OtherRunKeeps? {
        OtherRunsKeepPayloads(c, states[j - 1], a);
      } else {
        OthersKeepPayloads(c, states[j - 1], a);
      }
    }
  }

  // ---- Budgets ----------------------------------------------------------------------------------

  lemma BoundaryTracks(c: Config, b: Book, p: Pass)
    requires PassInv(c, b, p) && (AtBoundary(p.pc) || p.pc.Keeping? || p.pc.KeepWriting?)
    ensures Tracked(c, b, p.tracker)
  {
    hide LiveAt, UsageAt, TeardownAt, Walks, Tally, LetGo;
  }

  /** The tracker a pass carries is, at every boundary, the one a restarted host would rebuild from the Track. */
  lemma TrackerIsRebuilt(c: Config, s: State)
    requires Inv(c, s) && s.claim.Some? && c.budget.Some?
    requires AtBoundary(s.claim.value.pc) || s.claim.value.pc.Keeping? || s.claim.value.pc.KeepWriting?
    ensures s.claim.value.tracker.Some? && Rebuilt(c.budget, s.track) == s.claim.value.tracker
  {
    hide Legal, Fold, PassInv, Rebuilt, Tally;
    BoundaryTracks(c, Fold(s.track), s.claim.value);
    RebuiltIsTally(c, s.track);
  }

  lemma FinishesWithin(c: Config, b: Book, p: Pass)
    requires PassInv(c, b, p) && p.pc == Ending(Finished) && c.budget.Some? && p.spentOn.Some?
    ensures Tally(c.budget, b.reports).Some? && Within(c.budget.value, Tally(c.budget, b.reports).value)
  {
    hide LiveAt, UsageAt, TeardownAt, Walks, LetGo;
  }

  /** A pass that reached a step records `completed` only while the recorded spending is known and strictly
      within every limit. One that found every step completed already is not checked. */
  lemma CompletesWithinBudget(c: Config, s: State, a: Action)
    requires Inv(c, s) && Enabled(c, s, a) && Adds(c, s, a, RunCompleted) && c.budget.Some?
    ensures a.Advance?
    ensures s.claim.value.spentOn.Some? ==>
              Rebuilt(c.budget, s.track).Some? && Within(c.budget.value, Rebuilt(c.budget, s.track).value)
  {
    hide Legal, Fold, PassInv, Drive, Rebuilt, Tally, Within, WasSubmitted, MayWrite;
    AddsTells(c, s, a, RunCompleted);
    RebuiltIsTally(c, s.track);
    if s.claim.value.spentOn.Some? {
      FinishesWithin(c, Fold(s.track), s.claim.value);
    }
  }
}
