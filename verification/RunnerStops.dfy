/** What a budget stop says: the limit it names is set and was reached (runner.py:768-812, lifecycle.py:56-74). */
module RunnerStops {
  import opened Wrappers
  import opened Budget
  import opened RunMachine
  import opened Ledger
  import opened TrackLaws
  import opened Readers
  import opened Runner
  import opened RunnerInv
  import opened RunnerReach
  import opened RunnerLaws
  import opened RunnerTheorems

  /** The limit is set; and the tokens, or the cost, that the Track's reports name have come to it. Of two limits reached
      at once the tokens' is named. */
  predicate ReachedLimit(c: Config, track: seq<Event>, dimension: Dimension) {
    && c.budget.Some?
    && match dimension
       case Duration => c.budget.value.maxDuration.Some?
       case Tokens => c.budget.value.maxTokens.Some? && TokensNamed(track) >= c.budget.value.maxTokens.value
       case Cost =>
         && c.budget.value.maxCost.Some? && CostNamed(track) >= c.budget.value.maxCost.value
         && (c.budget.value.maxTokens.Some? ==> TokensNamed(track) < c.budget.value.maxTokens.value)
  }

  /** What a pass is about to stop for: it closes with a budget stop, or will when its step's result is kept. */
  function StoppingFor(p: Pass): Option<Dimension> {
    match p.pc
    case Closing(OverBudget(dimension, _)) => Some(dimension)
    case Ending(OverBudget(dimension, _)) => Some(dimension)
    case Keeping => p.stop
    case KeepWriting => p.stop
    case _ => None
  }

  predicate Reaches(c: Config, track: seq<Event>, stop: Option<Dimension>) {
    stop.Some? ==> ReachedLimit(c, track, stop.value)
  }

  predicate StopHolds(c: Config, track: seq<Event>, p: Pass) {
    Reaches(c, track, StoppingFor(p))
  }

  predicate Spends(added: Option<Event>) {
    added.Some? && added.value.InteractionUsage?
  }

  function Adding(track: seq<Event>, added: Option<Event>): seq<Event> {
    if added.Some? then track + [added.value] else track
  }

  lemma CallNeverStops(c: Config, track: seq<Event>, p: Pass, ch: Choice, q: Pass)
    requires BeforeSteps(p.pc) && Drive(c, track, p, ch).pass == Some(q)
    ensures StoppingFor(q).None?
  {
    hide Fold, ReplayOf, Rebuilt, WasSubmitted, Decide, HoldsNothing, OnWalk, OnEnd, OnOutcome, OnTeardown, OnWorker;
  }

  lemma WorkerNeverStops(c: Config, track: seq<Event>, p: Pass, ch: Choice, q: Pass)
    requires !BeforeSteps(p.pc) && !AtBoundary(p.pc) && !AtEnd(p.pc) && !p.pc.Judging? && !LettingGo(p.pc)
    requires Drive(c, track, p, ch).pass == Some(q)
    ensures StoppingFor(q).None?
  {
    hide ValidateUsage, Keys.Key, Keys.Instance, OnCall, OnWalk, OnEnd, OnOutcome, OnTeardown;
  }

  lemma TeardownNeverStops(c: Config, track: seq<Event>, p: Pass, ch: Choice, q: Pass)
    requires LettingGo(p.pc) && Drive(c, track, p, ch).pass == Some(q)
    ensures StoppingFor(q).None?
  {
    hide Keys.Instance, OnCall, OnWalk, OnEnd, OnOutcome, OnWorker;
  }

  lemma WalkStops(c: Config, track: seq<Event>, p: Pass, ch: Choice, q: Pass)
    requires AtBoundary(p.pc) && Drive(c, track, p, ch).pass == Some(q)
    ensures StoppingFor(q).Some? ==> p.pc.AtStep? && Drive(c, track, p, ch).event.None? && Check(c, p, ch.now) == StoppingFor(q)
  {
    hide Fold, Check, OnCall, OnEnd, OnOutcome, OnTeardown, OnWorker;
  }

  lemma JudgingStops(c: Config, track: seq<Event>, p: Pass, ch: Choice, q: Pass)
    requires p.pc.Judging? && Drive(c, track, p, ch).pass == Some(q)
    ensures StoppingFor(q).Some? ==> Drive(c, track, p, ch).event.None? && q.pc.Keeping? && Check(c, q, ch.now) == StoppingFor(q)
  {
    hide Fold, Exceeded, Evaluate, Succeeded, Add, OnCall, OnWalk, OnEnd, OnTeardown, OnWorker;
  }

  lemma KeepingStops(c: Config, track: seq<Event>, p: Pass, ch: Choice, q: Pass)
    requires (p.pc.Keeping? || p.pc.KeepWriting?) && Drive(c, track, p, ch).pass == Some(q) && StoppingFor(q).Some?
    ensures StoppingFor(p) == StoppingFor(q) && !Spends(Drive(c, track, p, ch).event)
  {
    hide OnJudging, OnFailingStep, OnCancellingStep, Keys.Key, KeptAs, PutFor, OnCall, OnWalk, OnTeardown, OnWorker, OnEnd;
  }

  lemma FailingNeverStops(c: Config, track: seq<Event>, p: Pass, ch: Choice, q: Pass)
    requires (p.pc.FailingStep? || p.pc.CancellingStep?) && Drive(c, track, p, ch).pass == Some(q)
    ensures StoppingFor(q).None?
  {
    hide OnJudging, OnKeeping, OnKeepWriting, Keys.Key, OwnError, OnCall, OnWalk, OnTeardown, OnWorker, OnEnd;
  }

  lemma EndStops(c: Config, track: seq<Event>, p: Pass, ch: Choice, q: Pass)
    requires AtEnd(p.pc) && !Deciding(p.pc) && Drive(c, track, p, ch).pass == Some(q) && StoppingFor(q).Some?
    ensures StoppingFor(p) == StoppingFor(q) && !Spends(Drive(c, track, p, ch).event)
  {
    hide Fold, Keys.Key, PutFor, EndMove, OnCall, OnWalk, OnTeardown, OnWorker, OnOutcome;
  }

  lemma CheckReaches(c: Config, s: State, p: Pass, now: nat)
    requires Inv(c, s) && s.claim == Some(p) && (AtBoundary(p.pc) || p.pc.Keeping?)
    ensures Reaches(c, s.track, Check(c, p, now))
  {
    hide Legal, Fold, PassInv, Rebuilt, TokensNamed, CostNamed, AllNamed;
    if c.budget.Some? {
      TrackerIsRebuilt(c, s);
      RebuiltIsTally(c, s.track);
    }
  }

  lemma StillReaches(c: Config, s: State, added: Option<Event>, stop: Option<Dimension>, s': State)
    requires Reaches(c, s.track, stop) && !Spends(added) && s'.track == Adding(s.track, added)
    ensures Reaches(c, s'.track, stop)
  {
    hide TokensNamed, CostNamed;
    if added.Some? {
      OthersAddNothing(s.track, added.value);
    }
  }

  lemma OthersAddNothing(track: seq<Event>, e: Event)
    requires !e.InteractionUsage?
    ensures TokensNamed(track + [e]) == TokensNamed(track) && CostNamed(track + [e]) == CostNamed(track)
  {
    assert (track + [e])[..|track|] == track;
  }

  lemma DriveStops(c: Config, s: State, p: Pass, ch: Choice, s': State, q: Pass)
    requires Inv(c, s) && Inv(c, s') && s.claim == Some(p) && s'.claim == Some(q) && StopHolds(c, s.track, p)
    requires s' == Took(s, Drive(c, s.track, p, ch))
    ensures StopHolds(c, s'.track, q)
  {
    hide Inv, Drive, ReachedLimit, Check, PassInv, TokensNamed, CostNamed, Spends;
    if StoppingFor(q).Some? {
      if BeforeSteps(p.pc) {
        CallNeverStops(c, s.track, p, ch, q);
      } else if AtBoundary(p.pc) {
        WalkStops(c, s.track, p, ch, q);
        CheckReaches(c, s, p, ch.now);
      } else if p.pc.Judging? {
        JudgingStops(c, s.track, p, ch, q);
        CheckReaches(c, s', q, ch.now);
      } else if AtEnd(p.pc) {
        if p.pc.Keeping? || p.pc.KeepWriting? {
          KeepingStops(c, s.track, p, ch, q);
        } else if Deciding(p.pc) {
          FailingNeverStops(c, s.track, p, ch, q);
        } else {
          EndStops(c, s.track, p, ch, q);
        }
        StillReaches(c, s, Drive(c, s.track, p, ch).event, StoppingFor(p), s');
      } else if LettingGo(p.pc) {
        TeardownNeverStops(c, s.track, p, ch, q);
      } else {
        WorkerNeverStops(c, s.track, p, ch, q);
      }
    }
  }

  ghost predicate StopStands(c: Config, s: State) {
    s.claim.Some? ==> StopHolds(c, s.track, s.claim.value)
  }

  lemma StopStep(c: Config, s: State, a: Action, s': State)
    requires Inv(c, s) && Inv(c, s') && StopStands(c, s) && Enabled(c, s, a)
    requires s' == Do(c, s, a)
    ensures StopStands(c, s')
  {
    hide Inv, Drive, ReachedLimit, WasSubmitted, ReplayOf, CancelRequestOf;
    if s'.claim.Some? && !a.Acquire? {
      match a
      case Advance(ch) => DriveStops(c, s, s.claim.value, ch, s', s'.claim.value);
      case ClientSubmits(op, at) => StillReaches(c, s, Some(OpSubmitted(op, at)), StoppingFor(s.claim.value), s');
      case ClientWrites(e) => StillReaches(c, s, Some(e), StoppingFor(s.claim.value), s');
      case _ =>
    }
  }

  lemma {:induction false} BehaviourStops(c: Config, states: seq<State>, k: nat)
    requires Behaviour(c, states) && k < |states|
    ensures StopStands(c, states[k])
  {
    hide Inv, Enabled, Do, StopStands, Behaviour;
    if k == 0 {
      NothingStops(c, states);
    } else {
      BehaviourStops(c, states, k - 1);
      var a := OneStep(c, states, k - 1);
      StopStep(c, states[k - 1], a, states[k]);
    }
  }

  lemma NothingStops(c: Config, states: seq<State>)
    requires Behaviour(c, states)
    ensures states[0].claim.None? && StopStands(c, states[0])
  {
  }

  lemma StopWritten(c: Config, track: seq<Event>, p: Pass, ch: Choice, dimension: Dimension, step: Option<string>)
    requires Drive(c, track, p, ch).event == Some(BudgetStopped(dimension, step)) && p.pc.Ending?
    ensures StoppingFor(p) == Some(dimension)
  {
    hide OnCall, OnWalk, OnOutcome, OnTeardown, OnWorker, OnClosing;
  }

  /** A run is stopped over its budget only by a limit that is set, and that the reports on its Track have reached as it is
      written: the limit it names. */
  lemma StopsForTheLimit(c: Config, states: seq<State>, k: nat, e: Event)
    requires Behaviour(c, states) && k + 1 < |states| && Wrote(states[k], states[k + 1], e) && e.BudgetStopped?
    ensures ReachedLimit(c, states[k].track, e.dimension)
  {
    hide Behaviour, Legal, Fold, PassInv, Drive, Do, WasSubmitted, MayWrite, ReachedLimit;
    var a := OneWrite(c, states, k, e);
    AddsTells(c, states[k], a, e);
    BehaviourStops(c, states, k);
    StopWritten(c, states[k].track, states[k].claim.value, a.choice, e.dimension, e.at_step);
  }
}
