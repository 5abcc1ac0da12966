/** What a pass found to do, and when it ends a run `completed`: the check at the end of a walk over the Op's steps
    is made only by a pass that reached a step (runner.py:749-763, :802-812). */
module RunnerWalks {
  import opened Wrappers
  import opened Budget
  import opened RunMachine
  import opened Ledger
  import opened TrackLaws
  import opened Readers
  import opened Runner
  import opened RunnerInv
  import opened RunnerReach
  import opened RunnerLaws

  // ---- What a pass reached ----------------------------------------------------------------------

  predicate Underway(pc: Pc) {
    !BeforeSteps(pc) && !pc.Done?
  }

  /** Every step of the Op is among the completed ones. */
  ghost predicate NothingLeft(op: Op, completed: seq<string>) {
    forall step :: step in op.steps ==> step.name in completed
  }

  function AsSet(names: seq<string>): set<string> {
    set s | s in names
  }

  /** The step a pass names as reached was not completed when the pass began; while it names none, every step it
      is past was. */
  predicate Reached(p: Pass) {
    match p.spentOn
    case None => forall k :: 0 <= k < p.i && k < |p.op.steps| ==> p.op.steps[k].name in p.completed
    case Some(name) => name !in p.completed && exists k :: 0 <= k < |p.op.steps| && p.op.steps[k].name == name
  }

  lemma KeepingOnStep(c: Config, b: Book, p: Pass)
    requires PassInv(c, b, p) && (p.pc.Approving? || p.pc.KeepWriting?)
    ensures p.spentOn.Some?
  {
    hide TeardownAt, LiveAt, UsageAt, Walks, Tally, LetGo;
  }

  lemma ReachedOn(p: Pass, q: Pass)
    requires Underway(p.pc) && WalksOn(p, q) && Reached(p)
    requires p.pc.Approving? || p.pc.KeepWriting? ==> p.spentOn.Some?
    ensures Reached(q) && q.completed == p.completed && q.op == p.op
  {
  }

  lemma PreparingTakesUp(c: Config, track: seq<Event>, p: Pass, ch: Choice)
    requires p.pc.Preparing? && p.spentOn.None?
    ensures var q := Drive(c, track, p, ch).pass;
            q.Some? && q.value.op == p.op && q.value.completed == AsSet(Fold(p.history).completed) && Reached(q.value)
  {
    hide OnEnd, OnOutcome, OnTeardown, OnWalk, OnWorker, Fold, ReplayOf, Rebuilt;
  }

  lemma PreparingIsFresh(c: Config, b: Book, p: Pass)
    requires PassInv(c, b, p) && p.pc.Preparing?
    ensures p.spentOn.None?
  {
  }

  /** A pass that is under way was preparing one step ago, or was under way already. */
  lemma UnderwayBefore(c: Config, s: State, a: Action)
    requires Inv(c, s) && Enabled(c, s, a) && Do(c, s, a).claim.Some? && Underway(Do(c, s, a).claim.value.pc)
    ensures SamePass(s, Do(c, s, a))
    ensures var p, q := s.claim.value, Do(c, s, a).claim.value;
            if p.pc.Preparing? && a.Advance? then
              q.op == p.op && q.completed == AsSet(Fold(s.track).completed) && Reached(q)
            else
              Underway(p.pc) && q.op == p.op && q.completed == p.completed && (Reached(p) ==> Reached(q))
  {
    hide Legal, Fold, PassInv, Drive, WasSubmitted, MayWrite, Reached, WalksOn;
    if a.Advance? {
      var p := s.claim.value;
      if p.pc.Done? {
        DoneReleases(c, s.track, p, a.choice);
      } else if p.pc.Reading? {
        ReadingTells(c, s.track, p, a.choice);
      } else {
        DriveTells(c, s.track, p, a.choice);
        if p.pc.Preparing? {
          PreparingIsFresh(c, Fold(s.track), p);
          PreparingTakesUp(c, s.track, p, a.choice);
        } else {
          AdvancesUnderway(c, Fold(s.track), p, Do(c, s, a).claim.value);
        }
      }
    } else if a.AcceptCancel? || a.CancelTeardownReturns? {
      AsidesKeep(s, a, c);
    }
  }

  lemma AsidesKeep(s: State, a: Action, c: Config)
    requires Enabled(c, s, a) && (a.AcceptCancel? || a.CancelTeardownReturns?)
    ensures var p, q := s.claim.value, Do(c, s, a).claim.value;
            q.op == p.op && q.completed == p.completed && (Reached(p) ==> Reached(q))
  {
  }

  lemma AdvancesUnderway(c: Config, b: Book, p: Pass, q: Pass)
    requires PassInv(c, b, p) && WalksOn(p, q) && Underway(q.pc) && !p.pc.Preparing? && !p.pc.Done?
    ensures Underway(p.pc) && q.op == p.op && q.completed == p.completed && (Reached(p) ==> Reached(q))
  {
    hide PassInv, Reached;
    if p.pc.Approving? || p.pc.KeepWriting? {
      KeepingOnStep(c, b, p);
    }
    if Reached(p) && Underway(p.pc) {
      ReachedOn(p, q);
    }
  }

  /** Every pass that is under way began at one moment: what it takes as completed is what its Track said then. */
  lemma {:induction false} BeganAt(c: Config, states: seq<State>, k: nat) returns (began: nat)
    requires Behaviour(c, states) && k < |states| && states[k].claim.Some? && Underway(states[k].claim.value.pc)
    ensures began < k && SamePass(states[began], states[k]) && states[began].claim.value.pc.Preparing?
    ensures states[began].claim.value.op == states[k].claim.value.op
    ensures states[k].claim.value.completed == AsSet(Fold(states[began].track).completed)
    ensures Reached(states[k].claim.value)
  {
    hide Behaviour, Inv, Enabled, Do, Reached, Fold;
    if k == 0 {
      StartsAtStart(c, states);
    } else {
      var a := OneStep(c, states, k - 1);
      UnderwayBefore(c, states[k - 1], a);
      if states[k - 1].claim.value.pc.Preparing? {
        began := k - 1;
      } else {
        began := BeganAt(c, states, k - 1);
      }
    }
  }

  lemma StartsAtStart(c: Config, states: seq<State>)
    requires Behaviour(c, states)
    ensures states[0] == START
  {
  }

  // ---- The check at the end of a walk -----------------------------------------------------------

  predicate AtWalksEnd(p: Pass) {
    p.pc.AtStep? && p.i >= |p.op.steps|
  }

  /** What the Track's reports come to is known and strictly below each limit, and the deadline lies ahead. */
  ghost predicate BelowEveryLimit(budget: RunBudget, track: seq<Event>, now: nat) {
    && BelowLimits(budget, track)
    && DeadlineAhead(budget, track, now)
  }

  lemma ExceededExactly(budget: RunBudget, startedAt: nat, spent: Spend, now: nat)
    ensures Exceeded(budget, startedAt, spent, now).None?
       <==> Within(budget, spent) && (budget.maxDuration.Some? ==> now < startedAt + budget.maxDuration.value)
  {
  }

  lemma ReachedMeans(c: Config, b: Book, p: Pass, completed: seq<string>)
    requires PassInv(c, b, p) && (AtWalksEnd(p) || p.pc == Ending(Finished)) && Reached(p) && p.completed == AsSet(completed)
    ensures p.spentOn.None? <==> NothingLeft(p.op, completed)
  {
    hide Distinct, Tally, LetGo, AttemptInv, CallInv, Walks, Flying, Answering;
    if p.spentOn.Some? {
      var k :| 0 <= k < |p.op.steps| && p.op.steps[k].name == p.spentOn.value;
      assert p.op.steps[k] in p.op.steps;
    } else {
      assert forall k :: 0 <= k < |p.op.steps| ==> p.op.steps[k].name in completed;
    }
  }

  lemma EndOfWalkGoes(c: Config, track: seq<Event>, p: Pass, ch: Choice)
    requires AtWalksEnd(p)
    ensures var over := Check(c, p, ch.now);
            Drive(c, track, p, ch) == Goes(p.(pc := Closing(if p.spentOn.Some? && over.Some? then OverBudget(over.value, p.spentOn.value)
                                                            else Finished)))
  {
    hide OnCall, OnEnd, OnOutcome, OnTeardown, OnWorker, Check;
  }

  /** A walk over the Op's steps closes with `completed` exactly when every step was completed before the pass
      began, whatever is recorded as spent, or else when the spending rebuilt from the Track is known and below every
      limit and the deadline lies ahead; and with a budget stop in every other case. */
  lemma ClosesExactly(c: Config, states: seq<State>, k: nat, ch: Choice) returns (began: nat, end: End)
    requires Behaviour(c, states) && k < |states| && states[k].claim.Some? && AtWalksEnd(states[k].claim.value)
    requires c.budget.Some?
    ensures began < k && SamePass(states[began], states[k]) && states[began].claim.value.pc.Preparing?
    ensures Drive(c, states[k].track, states[k].claim.value, ch) == Goes(states[k].claim.value.(pc := Closing(end)))
    ensures end.Finished? || end.OverBudget?
    ensures end.Finished? <==> NothingLeft(states[k].claim.value.op, Fold(states[began].track).completed)
                               || BelowEveryLimit(c.budget.value, states[k].track, ch.now)
  {
    hide Behaviour, Legal, Fold, PassInv, Drive, Rebuilt, Reached, NothingLeft, Exceeded, Within, BelowLimits, DeadlineAhead;
    var s, p := states[k], states[k].claim.value;
    began := BeganAt(c, states, k);
    BehaviourKeeps(c, states, k);
    TrackerIsRebuilt(c, s);
    RebuiltBelow(c, s.track);
    ReachedMeans(c, Fold(s.track), p, Fold(states[began].track).completed);
    EndOfWalkGoes(c, s.track, p, ch);
    ExceededExactly(c.budget.value, Fold(p.history).startedAt, p.tracker.value, ch.now);
    SyncedAtStep(c, Fold(s.track), p);
    DeadlineIsFromTheStart(c.budget.value, s.track, ch.now);
    end := Drive(c, s.track, p, ch).pass.value.pc.end;
  }

  // ---- The boundary before a step ---------------------------------------------------------------

  lemma OpenStepGoes(c: Config, track: seq<Event>, p: Pass, ch: Choice)
    requires AtOpenStep(p)
    ensures var over, name := Check(c, p, ch.now), p.op.steps[p.i].name;
            Drive(c, track, p, ch) ==
              if p.cancelledBy.Some? then Goes(p.(pc := Closing(OnlyIfCancelled)))
              else Goes(p.(spentOn := Some(name),
                           pc := if name in Fold(p.history).approved then Approving
                                 else if over.Some? then Closing(OverBudget(over.value, name)) else Resolving))
  {
    hide OnCall, OnEnd, OnOutcome, OnTeardown, OnWorker, Check, Fold;
  }

  lemma SyncedAtStep(c: Config, b: Book, p: Pass)
    requires PassInv(c, b, p) && HistoryInv(c, b, p) && p.pc.AtStep?
    ensures Fold(p.history) == b && b.op.Some?
  {
    hide Fold, Legal, Distinct, Walks, Tracked, Settled;
  }

  /** At a step that is not completed a pass starts an attempt exactly when it is not cancelled, no approved result waits to
      complete the step, and the spending rebuilt from the Track is below every limit, the deadline ahead. An approved
      result completes its step whatever is spent; over a limit the run closes with a budget stop at that step. */
  lemma GoesOnExactly(c: Config, states: seq<State>, k: nat, ch: Choice)
    requires Behaviour(c, states) && k < |states| && states[k].claim.Some? && AtOpenStep(states[k].claim.value)
    ensures var s, p, f := states[k], states[k].claim.value, Drive(c, states[k].track, states[k].claim.value, ch);
            var name, below := p.op.steps[p.i].name, c.budget.None? || BelowEveryLimit(c.budget.value, s.track, ch.now);
            && f.event.None? && f.put.None? && f.pass.Some?
            && (f.pass.value.pc.Approving? <==> p.cancelledBy.None? && name in Fold(s.track).approved)
            && (f.pass.value.pc.Resolving? <==> p.cancelledBy.None? && name !in Fold(s.track).approved && below)
            && (f.pass.value.pc.Closing? && f.pass.value.pc.end.OverBudget? <==>
                  p.cancelledBy.None? && name !in Fold(s.track).approved && !below)
            && (f.pass.value.pc == Closing(OnlyIfCancelled) <==> p.cancelledBy.Some?)
            && (f.pass.value.pc.Closing? && f.pass.value.pc.end.OverBudget? ==> f.pass.value.pc.end.step == name)
  {
    hide Behaviour, Legal, Fold, PassInv, Drive, Rebuilt, Exceeded, Within, BelowLimits, DeadlineAhead;
    var s, p := states[k], states[k].claim.value;
    BehaviourKeeps(c, states, k);
    SyncedAtStep(c, Fold(s.track), p);
    OpenStepGoes(c, s.track, p, ch);
    if c.budget.Some? {
      TrackerIsRebuilt(c, s);
      RebuiltBelow(c, s.track);
      ExceededExactly(c.budget.value, Fold(p.history).startedAt, p.tracker.value, ch.now);
      DeadlineIsFromTheStart(c.budget.value, s.track, ch.now);
    }
  }

  // ---- What is written in the end ---------------------------------------------------------------

  /** What an uncancelled pass writes of the end it closes with. */
  function EndEvent(end: End): Event {
    match end
    case OverBudget(dimension, step) => BudgetStopped(dimension, Some(step))
    case _ => RunCompleted
  }

  predicate ClosingAs(p: Pass, end: End) {
    p.pc == Closing(end) || p.pc == Ending(end)
  }

  lemma ClosesOn(c: Config, b: Book, track: seq<Event>, p: Pass, ch: Choice, end: End)
    requires PassInv(c, b, p) && ClosingAs(p, end) && p.cancelledBy.None? && (end.Finished? || end.OverBudget?)
    ensures var f := Drive(c, track, p, ch);
            f.pass.Some? && if p.pc.Closing? then f.event.None? && f.pass.value.pc == Ending(end)
                            else f.event == Some(EndEvent(end)) && f.pass.value.pc.Done?
  {
    hide OnCall, OnWalk, OnOutcome, OnTeardown, OnWorker, Walks, Tally, LetGo, Distinct, CallInv, StepInv, AttemptInv;
  }

  lemma ClosingStep(c: Config, s: State, a: Action, end: End)
    requires Inv(c, s) && Enabled(c, s, a) && SamePass(s, Do(c, s, a)) && ClosingAs(s.claim.value, end)
    requires (end.Finished? || end.OverBudget?) && Do(c, s, a).claim.value.cancelledBy.None?
    ensures s.claim.value.cancelledBy.None?
    ensures var s' := Do(c, s, a);
            || (s'.claim.value.pc.Done? && s'.track == s.track + [EndEvent(end)])
            || (ClosingAs(s'.claim.value, end) && s.track <= s'.track && forall m :: |s.track| <= m < |s'.track| ==> !IsEnd(s'.track[m]))
  {
    hide Legal, Fold, PassInv, Drive, WasSubmitted, ReplayOf, CancelRequestOf, EndEvent;
    if a.Advance? {
      DriveTells(c, s.track, s.claim.value, a.choice);
      ClosesOn(c, Fold(s.track), s.track, s.claim.value, a.choice, end);
    }
  }

  lemma DoneStep(c: Config, s: State, a: Action)
    requires Inv(c, s) && Enabled(c, s, a) && SamePass(s, Do(c, s, a)) && s.claim.value.pc.Done?
    ensures var s' := Do(c, s, a);
            && s'.claim.value.pc.Done? && s'.claim.value.cancelledBy == s.claim.value.cancelledBy && s.track <= s'.track
            && forall m :: |s.track| <= m < |s'.track| ==> !IsEnd(s'.track[m])
  {
    hide Legal, Fold, PassInv, Drive, WasSubmitted, ReplayOf, CancelRequestOf;
    AfterTheEnd(c, s, a);
    TrackGrows(c, s, a);
  }

  /** The ends written since `from`: none while the pass is closing, and the one it closed with once it is over. */
  ghost predicate EndsAs(p: Pass, from: nat, track: seq<Event>, end: End) {
    && from <= |track|
    && (forall m :: from <= m < |track| && IsEnd(track[m]) ==> track[m] == EndEvent(end))
    && (if p.pc.Done? then EndEvent(end) in track[from..] else ClosingAs(p, end))
  }

  lemma EndsOn(s: State, s': State, from: nat, end: End)
    requires s.claim.Some? && s'.claim.Some? && EndsAs(s.claim.value, from, s.track, end) && s.track <= s'.track
    requires end.Finished? || end.OverBudget?
    requires if s.claim.value.pc.Done? || !s'.claim.value.pc.Done?
             then (s'.claim.value.pc.Done? || ClosingAs(s'.claim.value, end)) && (s.claim.value.pc.Done? <==> s'.claim.value.pc.Done?)
                  && forall m :: |s.track| <= m < |s'.track| ==> !IsEnd(s'.track[m])
             else s'.track == s.track + [EndEvent(end)]
    ensures EndsAs(s'.claim.value, from, s'.track, end)
  {
    if s.claim.value.pc.Done? {
      assert s.track[from..] <= s'.track[from..];
    } else if s'.claim.value.pc.Done? {
      assert s'.track[from..] == s.track[from..] + [EndEvent(end)];
    }
  }

  lemma {:induction false} ClosingIsWritten(c: Config, states: seq<State>, i: nat, j: nat, end: End)
    requires Behaviour(c, states) && i <= j < |states| && SamePass(states[i], states[j])
    requires states[i].claim.value.pc == Closing(end) && (end.Finished? || end.OverBudget?)
    requires states[j].claim.value.cancelledBy.None?
    ensures EndsAs(states[j].claim.value, |states[i].track|, states[j].track, end)
    decreases j
  {
    hide Inv, Enabled, Do, Behaviour, IsEnd, EndEvent;
    if i < j {
      HeldBetween(c, states, i, j);
      var a := OneStep(c, states, j - 1);
      if states[j - 1].claim.value.cancelledBy.Some? {
        CancelledStep(c, states[j - 1], a);
      } else {
        ClosingIsWritten(c, states, i, j - 1, end);
        if states[j - 1].claim.value.pc.Done? {
          DoneStep(c, states[j - 1], a);
        } else {
          ClosingStep(c, states[j - 1], a, end);
        }
        EndsOn(states[j - 1], states[j], |states[i].track|, end);
      }
    }
  }

  /** So an uncancelled pass that comes to the end of its walk writes `completed` exactly then, and
      `budget_exceeded` in every other case. */
  lemma CompletesExactly(c: Config, states: seq<State>, k: nat, j: nat, ch: Choice) returns (began: nat)
    requires Behaviour(c, states) && k < j < |states| && SamePass(states[k], states[j])
    requires AtWalksEnd(states[k].claim.value) && states[k + 1] == Took(states[k], Drive(c, states[k].track, states[k].claim.value, ch))
    requires states[j].claim.value.pc.Done? && states[j].claim.value.cancelledBy.None? && c.budget.Some?
    ensures began < k && SamePass(states[began], states[k]) && states[began].claim.value.pc.Preparing?
    ensures |states[k].track| <= |states[j].track|
    ensures var written := states[j].track[|states[k].track|..];
            && (RunCompleted in written <==> NothingLeft(states[k].claim.value.op, Fold(states[began].track).completed)
                                             || BelowEveryLimit(c.budget.value, states[k].track, ch.now))
            && (RunCompleted !in written <==> exists e :: e in written && e.BudgetStopped?)
  {
    hide Behaviour, Drive, Fold, NothingLeft, BelowEveryLimit, MayWrite, WasSubmitted, Enabled, Do;
    var end;
    began, end := ClosesExactly(c, states, k, ch);
    AdvancesTo(c, states[k], states[k + 1], ch, end);
    assert SamePass(states[k + 1], states[j]) by { SamePassAfter(states[k], states[k + 1], states[j]); }
    ClosingIsWritten(c, states, k + 1, j, end);
    WrittenOnce(states[j].claim.value, |states[k].track|, states[j].track, end);
  }

  lemma AdvancesTo(c: Config, s: State, s': State, ch: Choice, end: End)
    requires s.claim.Some? && s' == Took(s, Drive(c, s.track, s.claim.value, ch))
    requires Drive(c, s.track, s.claim.value, ch) == Goes(s.claim.value.(pc := Closing(end)))
    ensures s'.claim == Some(s.claim.value.(pc := Closing(end))) && s'.track == s.track
  {
    hide Drive;
  }

  lemma SamePassAfter(s: State, s': State, t: State)
    requires SamePass(s, t) && s'.claim.Some? && s'.claim.value.id == s.claim.value.id
    ensures SamePass(s', t)
  {
  }

  lemma WrittenOnce(p: Pass, from: nat, track: seq<Event>, end: End)
    requires EndsAs(p, from, track, end) && p.pc.Done? && (end.Finished? || end.OverBudget?)
    ensures RunCompleted in track[from..] <==> end.Finished?
    ensures (exists e :: e in track[from..] && e.BudgetStopped?) <==> end.OverBudget?
  {
    assert EndEvent(end) in track[from..];
    forall e | e in track[from..] && IsEnd(e) ensures e == EndEvent(end) {
      var m :| 0 <= m < |track[from..]| && track[from..][m] == e;
      assert track[from + m] == e;
    }
  }
}
