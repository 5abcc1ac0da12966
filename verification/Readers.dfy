/** What a call reads of a Track before it acts, as the loops that read it (runner.py:372-452; intents.py:45-58).
    Each loop is proved to find what the ledger holds, on any events at all; the budget's rebuilding, which
    counts a completed step's usage only where no report of the step was recorded, on every legal Track. */
module Readers {
  import opened Wrappers
  import opened Budget
  import opened RunMachine
  import opened Ledger
  import opened LedgerSound
  import opened TrackLaws

  /** `_completed_steps` */
  method CompletedSteps(events: seq<Event>) returns (r: set<string>)
    ensures r == set s | s in Fold(events).completed
    ensures r == set k | 0 <= k < |events| && events[k].StepCompleted? :: events[k].step
  {
    hide Post;
    r := {};
    for i := 0 to |events|
      invariant r == set s | s in Fold(events[..i]).completed
      invariant r == set k | 0 <= k < i && events[k].StepCompleted? :: events[k].step
    {
      PrefixFold(events, i);
      PostCompleted(Fold(events[..i]), events[i]);
      if events[i].StepCompleted? {
        r := r + {events[i].step};
      }
    }
    assert events[..|events|] == events;
  }

  /** `_retry_count` */
  method RetryCount(events: seq<Event>) returns (r: nat)
    ensures r == Fold(events).retries
    ensures r == |set k | 0 <= k < |events| && events[k].RetryRequested? && events[k].kind == New|
  {
    hide Post;
    r := 0;
    ghost var counted: set<int> := {};
    for i := 0 to |events|
      invariant r == Fold(events[..i]).retries
      invariant counted == (set k | 0 <= k < i && events[k].RetryRequested? && events[k].kind == New) && r == |counted|
    {
      if events[i].RetryRequested? && events[i].kind == New {
        counted := counted + {i};
      }
      PrefixFold(events, i);
      PostRetries(Fold(events[..i]), events[i]);
      if events[i].RetryRequested? && events[i].kind.New? {
        r := r + 1;
      }
    }
    assert events[..|events|] == events;
  }

  lemma PostRetries(b: Book, e: Event)
    ensures Post(b, e).retries == b.retries + if e.RetryRequested? && e.kind.New? then 1 else 0
  {
    hide ReplayOne;
  }

  function Lookup<T>(m: map<string, T>, step: string): Option<T> {
    if step in m then Some(m[step]) else None
  }

  lemma PostGates(b: Book, e: Event, step: string)
    ensures Lookup(Post(b, e).escalated, step)
         == if e.GateEscalated? && e.step == step then Some(Escalated(e.escalation, e.held)) else Lookup(b.escalated, step)
    ensures Lookup(Post(b, e).approved, step)
         == (if (e.GateEscalated? && e.step == step) || (e.StepCompleted? && e.step == step) then None
             else if e.GateDecided? && e.decided == Some(step) then
               (if e.outcome.Approve? && step in b.escalated && b.escalated[step].held.Some?
                then Some(b.escalated[step]) else None)
             else Lookup(b.approved, step))
  {
    hide ReplayOne;
  }

  /** The last escalation of the step before `j`, at `i`. */
  predicate LastEscalation(events: seq<Event>, i: nat, j: nat, step: string) {
    && i < j <= |events| && events[i].GateEscalated? && events[i].step == step
    && forall m :: i < m < j ==> !(events[m].GateEscalated? && events[m].step == step)
  }

  /** An event that settles what was decided of the step: it escalates again, completes, or is decided on. */
  predicate Touches(e: Event, step: string) {
    (e.GateEscalated? && e.step == step) || (e.StepCompleted? && e.step == step) || (e.GateDecided? && e.decided == Some(step))
  }

  /** The last that touched the step, at `j`, approved it, and its last escalation before that, at `i`, holds a result. */
  predicate ApprovedAt(events: seq<Event>, i: nat, j: nat, step: string) {
    && j < |events| && events[j].GateDecided? && events[j].decided == Some(step) && events[j].outcome == Approve
    && (forall m :: j < m < |events| ==> !Touches(events[m], step))
    && LastEscalation(events, i, j, step) && events[i].held.Some?
  }

  lemma {:induction false} EscalatedIsLast(events: seq<Event>, step: string)
    ensures match Lookup(Fold(events).escalated, step)
            case None => forall m :: 0 <= m < |events| ==> !(events[m].GateEscalated? && events[m].step == step)
            case Some(found) => exists i: nat :: LastEscalation(events, i, |events|, step)
                                                 && found == Escalated(events[i].escalation, events[i].held)
  {
    hide Post, Fold;
    if events == [] {
      NoGates(step);
    } else {
      var n := |events| - 1;
      EscalatedIsLast(events[..n], step);
      PrefixFold(events, n);
      assert events[..n + 1] == events;
      PostGates(Fold(events[..n]), events[n], step);
      assert forall m :: 0 <= m < n ==> events[..n][m] == events[m];
      if events[n].GateEscalated? && events[n].step == step {
        assert LastEscalation(events, n, |events|, step);
      } else if Lookup(Fold(events[..n]).escalated, step).Some? {
        var i: nat :| LastEscalation(events[..n], i, n, step)
                      && Lookup(Fold(events[..n]).escalated, step).value == Escalated(events[..n][i].escalation, events[..n][i].held);
        assert LastEscalation(events, i, |events|, step);
      }
    }
  }

  lemma NoGates(step: string)
    ensures Lookup(Fold([]).escalated, step).None? && Lookup(Fold([]).approved, step).None? && Lookup(Fold([]).signals, step).None?
  {
  }

  /** On any events: what is found approved is the result its last escalation holds, if the last event that touched the
      step approved it; and nothing is found exactly when there is no such pair of events. */
  lemma {:induction false} ApprovedIs(events: seq<Event>, step: string)
    ensures match Lookup(Fold(events).approved, step)
            case None => forall i: nat, j: nat :: !ApprovedAt(events, i, j, step)
            case Some(found) => exists i: nat, j: nat :: ApprovedAt(events, i, j, step)
                                                         && found == Escalated(events[i].escalation, events[i].held)
  {
    hide Post, Fold;
    if events == [] {
      NoGates(step);
    } else {
      var n := |events| - 1;
      var before, e := events[..n], events[n];
      ApprovedIs(before, step);
      EscalatedIsLast(before, step);
      PrefixFold(events, n);
      assert events[..n + 1] == events;
      PostGates(Fold(before), e, step);
      assert forall m :: 0 <= m < n ==> before[m] == events[m];
      if e.GateDecided? && e.decided == Some(step) {
        DecidedNow(events, step);
        if Lookup(Fold(events).approved, step).Some? {
          var i: nat :| LastEscalation(before, i, n, step)
                        && Lookup(Fold(before).escalated, step).value == Escalated(before[i].escalation, before[i].held);
          assert before[..n] == before;
          assert ApprovedAt(events, i, n, step);
        }
      } else {
        NotDecidedNow(events, step);
        if Lookup(Fold(events).approved, step).Some? {
          var i: nat, j: nat :| ApprovedAt(before, i, j, step)
                                && Lookup(Fold(before).approved, step).value == Escalated(before[i].escalation, before[i].held);
          assert ApprovedAt(events, i, j, step);
        }
      }
    }
  }

  lemma DecidedNow(events: seq<Event>, step: string)
    requires events != [] && events[|events| - 1].GateDecided? && events[|events| - 1].decided == Some(step)
    ensures forall i: nat, j: nat :: ApprovedAt(events, i, j, step) <==>
              j == |events| - 1 && events[j].outcome == Approve && LastEscalation(events[..j], i, j, step) && events[i].held.Some?
  {
    var n := |events| - 1;
    assert forall m :: 0 <= m < n ==> events[..n][m] == events[m];
    assert Touches(events[n], step);
  }

  lemma NotDecidedNow(events: seq<Event>, step: string)
    requires events != [] && !(events[|events| - 1].GateDecided? && events[|events| - 1].decided == Some(step))
    ensures forall i: nat, j: nat :: ApprovedAt(events, i, j, step) <==>
              !Touches(events[|events| - 1], step) && ApprovedAt(events[..|events| - 1], i, j, step)
  {
    var n := |events| - 1;
    assert forall m :: 0 <= m < n ==> events[..n][m] == events[m];
  }

  /** `_approved`: the escalation of a step that was approved and is not yet completed. */
  method Approved(events: seq<Event>, step: string) returns (approved: Option<Escalated>)
    ensures approved == Lookup(Fold(events).approved, step)
    ensures match approved
            case None => forall i: nat, j: nat :: !ApprovedAt(events, i, j, step)
            case Some(found) => exists i: nat, j: nat :: ApprovedAt(events, i, j, step)
                                                         && found == Escalated(events[i].escalation, events[i].held)
  {
    hide Post;
    ApprovedIs(events, step);
    var escalated: Option<Escalated> := None;
    approved := None;
    for i := 0 to |events|
      invariant escalated == Lookup(Fold(events[..i]).escalated, step)
      invariant approved == Lookup(Fold(events[..i]).approved, step)
    {
      PrefixFold(events, i);
      PostGates(Fold(events[..i]), events[i], step);
      match events[i]
      case GateEscalated(s, id, held) =>
        if s == step {
          escalated, approved := Some(Escalated(id, held)), None;
        }
      case GateDecided(s, outcome, _, _, _) =>
        if s == Some(step) {
          approved := if outcome.Approve? && escalated.Some? && escalated.value.held.Some? then escalated else None;
        }
      case StepCompleted(s, _, _, _, _) =>
        if s == step {
          approved := None;
        }
      case _ =>
    }
    assert events[..|events|] == events;
  }

  lemma PostSignal(b: Book, e: Event, step: string)
    ensures Lookup(Post(b, e).signals, step)
         == if e.GateDecided? && e.decided == Some(step) && e.outcome.SendBack? then Some(e.value) else Lookup(b.signals, step)
  {
    hide ReplayOne;
  }

  /** `_signal_for`: the findings of the latest send back of a step. */
  method SignalFor(events: seq<Event>, step: string) returns (r: Option<string>)
    ensures r == Lookup(Fold(events).signals, step)
    ensures r.None? ==> forall m :: 0 <= m < |events| ==> !SendsBack(events[m], step)
    ensures r.Some? ==> exists k :: 0 <= k < |events| && SendsBack(events[k], step) && r.value == events[k].value
                                    && forall m :: k < m < |events| ==> !SendsBack(events[m], step)
  {
    hide Post;
    r := None;
    for i := 0 to |events|
      invariant r == Lookup(Fold(events[..i]).signals, step)
      invariant r.None? ==> forall m :: 0 <= m < i ==> !SendsBack(events[m], step)
      invariant r.Some? ==> exists k :: 0 <= k < i && SendsBack(events[k], step) && r.value == events[k].value
                                        && forall m :: k < m < i ==> !SendsBack(events[m], step)
    {
      PrefixFold(events, i);
      PostSignal(Fold(events[..i]), events[i], step);
      if events[i].GateDecided? && events[i].decided == Some(step) && events[i].outcome.SendBack? {
        r := Some(events[i].value);
      }
    }
    assert events[..|events|] == events;
  }

  /** `cancel_request` */
  method CancelRequest(events: seq<Event>) returns (actor: Option<string>)
    ensures actor == CancelRequestOf(events)
  {
    actor := None;
    for i := 0 to |events|
      invariant actor == CancelRequestOf(events[..i])
    {
      assert events[..i + 1] == events[..i] + [events[i]];
      CancelRequestSnoc(events[..i], events[i]);
      match events[i]
      case CancelRequested(a) => actor := if actor.Some? then actor else Some(a);
      case RetryRequested(_, _) => actor := None;
      case _ =>
    }
    assert events[..|events|] == events;
  }

  // ---- Rebuilding the budget --------------------------------------------------------------------

  function AccountedSteps(events: seq<Event>): set<string> {
    set k | 0 <= k < |events| && events[k].InteractionUsage? :: events[k].step
  }

  /** The report an event is counted by, if it is counted. */
  function Counted(accounted: set<string>, e: Event): Option<Option<Usage>> {
    match e
    case InteractionUsage(_, _, usage) => Some(usage)
    case StepCompleted(step, _, usage, _, _) => if step in accounted then None else Some(usage)
    case _ => None
  }

  function RebuiltFrom(budget: Option<RunBudget>, accounted: set<string>, events: seq<Event>): Option<Spend> {
    if events == [] then Some(NOTHING)
    else
      var before := RebuiltFrom(budget, accounted, events[..|events| - 1]);
      match Counted(accounted, events[|events| - 1])
      case None => before
      case Some(usage) =>
        if before.None? || !Accountable(budget, usage) then None else Some(Add(before.value, usage))
  }

  function Rebuilt(budget: Option<RunBudget>, events: seq<Event>): Option<Spend> {
    RebuiltFrom(budget, AccountedSteps(events), events)
  }

  /** `budget_tracker`: two passes, the second refusing at the first report it cannot account for. */
  method BudgetTracker(budget: Option<RunBudget>, events: seq<Event>) returns (r: Option<Spend>)
    ensures r == Rebuilt(budget, events)
  {
    var accounted := AccountedSteps(events);
    var spent := NOTHING;
    for i := 0 to |events|
      invariant RebuiltFrom(budget, accounted, events[..i]) == Some(spent)
    {
      assert events[..i + 1][..i] == events[..i];
      match Counted(accounted, events[i])
      case None =>
      case Some(usage) =>
        if !Accountable(budget, usage) {
          RebuiltUnknown(budget, accounted, events, i + 1);
          return None;
        }
        spent := Add(spent, usage);
    }
    assert events[..|events|] == events;
    return Some(spent);
  }

  lemma {:induction false} RebuiltUnknown(budget: Option<RunBudget>, accounted: set<string>, events: seq<Event>, k: nat)
    requires k <= |events| && RebuiltFrom(budget, accounted, events[..k]).None?
    ensures RebuiltFrom(budget, accounted, events).None?
    decreases |events|
  {
    if k == |events| {
      assert events[..k] == events;
    } else {
      assert events[..|events| - 1][..k] == events[..k];
      RebuiltUnknown(budget, accounted, events[..|events| - 1], k);
    }
  }

  lemma {:induction false} AccountedSeen(t: seq<Event>, j: nat, step: string)
    requires j <= |t| && step in Fold(t[..j]).accounted
    ensures exists i :: 0 <= i < j && t[i].InteractionUsage? && t[i].step == step
  {
    hide Post, Fold;
    if j > 0 {
      PrefixFold(t, j - 1);
      PostAccounted(Fold(t[..j - 1]), t[j - 1]);
      if step in Fold(t[..j - 1]).accounted {
        AccountedSeen(t, j - 1, step);
      }
    } else {
      NothingAccounted(t);
    }
  }

  lemma PostAccounted(b: Book, e: Event)
    ensures Post(b, e).accounted == if e.InteractionUsage? then b.accounted + {e.step} else b.accounted
  {
    hide ReplayOne;
  }

  lemma NothingAccounted(t: seq<Event>)
    ensures Fold(t[..0]).accounted == {}
  {
    assert t[..0] == [];
  }

  lemma CompletedWasAccounted(c: Config, b: Book, asked: Option<string>, e: Event)
    requires Sound(c, b) && Allowed(c, b, asked, e) && e.StepCompleted?
    ensures e.step in b.accounted
  {
  }

  lemma RebuiltSnoc(budget: Option<RunBudget>, accounted: set<string>, p: seq<Event>, e: Event)
    ensures RebuiltFrom(budget, accounted, p + [e])
         == match Counted(accounted, e)
            case None => RebuiltFrom(budget, accounted, p)
            case Some(usage) =>
              if RebuiltFrom(budget, accounted, p).None? || !Accountable(budget, usage) then None
              else Some(Add(RebuiltFrom(budget, accounted, p).value, usage))
  {
    assert (p + [e])[..|p|] == p;
  }

  lemma SeenAccounted(t: seq<Event>, step: string)
    requires exists i :: 0 <= i < |t| && t[i].InteractionUsage? && t[i].step == step
    ensures step in AccountedSteps(t)
  {
  }

  lemma {:induction false} RebuiltPrefix(c: Config, t: seq<Event>, k: nat)
    requires Legal(c, t) && k <= |t|
    ensures RebuiltFrom(c.budget, AccountedSteps(t), t[..k]) == Tally(c.budget, Fold(t[..k]).reports)
  {
    hide Post, Fold, Legal, Allowed, Sound, Tally, RebuiltFrom, AccountedSteps, Accountable, Add;
    if k == 0 {
      EmptyFold();
      NothingRebuilt(c.budget, AccountedSteps(t));
      assert t[..0] == [];
    } else {
      RebuiltPrefix(c, t, k - 1);
      OneEvent(c, t, k - 1);
      var p, e := t[..k - 1], t[k - 1];
      assert t[..k] == p + [e];
      PostReports(Fold(p), e);
      RebuiltSnoc(c.budget, AccountedSteps(t), p, e);
      if e.InteractionUsage? {
        TallySnoc(c.budget, Fold(p).reports, e.usage);
      } else if e.StepCompleted? {
        CompletedWasAccounted(c, Fold(p), CancelRequestOf(p), e);
        AccountedSeen(t, k - 1, e.step);
        SeenAccounted(t, e.step);
      }
    }
  }

  lemma NothingRebuilt(budget: Option<RunBudget>, accounted: set<string>)
    ensures RebuiltFrom(budget, accounted, []) == Tally(budget, [])
  {
  }

  /** What a host rebuilds from any legal Track is the total of its reports, each counted once: an approved
      result, completed from its escalation, is not counted again. It is what the reports add up to, known exactly when
      each of them names what is limited. */
  lemma RebuiltIsTally(c: Config, t: seq<Event>)
    requires Legal(c, t)
    ensures Rebuilt(c.budget, t) == Tally(c.budget, Fold(t).reports)
    ensures c.budget.Some? ==>
              Rebuilt(c.budget, t) == if AllNamed(c.budget.value, t) then Some(Spend(TokensNamed(t), CostNamed(t))) else None
  {
    hide Post, Fold, Legal, AllNamed, Tally, Rebuilt;
    RebuiltPrefix(c, t, |t|);
    assert t[..|t|] == t;
    assert Rebuilt(c.budget, t) == Tally(c.budget, Fold(t).reports) by { RebuiltWhole(c.budget, t); }
    if c.budget.Some? {
      TallyIsSums(c.budget.value, t);
    }
  }

  lemma RebuiltWhole(budget: Option<RunBudget>, t: seq<Event>)
    ensures Rebuilt(budget, t) == RebuiltFrom(budget, AccountedSteps(t), t)
  {
  }

  /** The rebuilt total is known and within the limits exactly when the reports add up to less than each. */
  lemma RebuiltBelow(c: Config, t: seq<Event>)
    requires Legal(c, t) && c.budget.Some?
    ensures Rebuilt(c.budget, t).Some? && Within(c.budget.value, Rebuilt(c.budget, t).value) <==> BelowLimits(c.budget.value, t)
  {
    hide Legal, Rebuilt, AllNamed, TokensNamed, CostNamed;
    RebuiltIsTally(c, t);
  }

  // ---- A Track from before reports were recorded ------------------------------------------------

  /** What an event adds to the tokens, given the steps whose reports the Track has: a report, or else the usage that a
      step without any completed with. */
  function TokensOf(accounted: set<string>, e: Event): nat {
    match e
    case InteractionUsage(_, _, Some(Usage(Some(n), _))) => n
    case StepCompleted(step, _, Some(Usage(Some(n), _)), _, _) => if step in accounted then 0 else n
    case _ => 0
  }

  function CostOf(accounted: set<string>, e: Event): real {
    match e
    case InteractionUsage(_, _, Some(Usage(_, Some(x)))) => x
    case StepCompleted(step, _, Some(Usage(_, Some(x))), _, _) => if step in accounted then 0.0 else x
    case _ => 0.0
  }

  function TokensIn(accounted: set<string>, events: seq<Event>): nat {
    if events == [] then 0
    else TokensIn(accounted, events[..|events| - 1]) + TokensOf(accounted, events[|events| - 1])
  }

  function CostIn(accounted: set<string>, events: seq<Event>): real {
    if events == [] then 0.0
    else CostIn(accounted, events[..|events| - 1]) + CostOf(accounted, events[|events| - 1])
  }

  /** On any events, reports recorded or not: a rebuilt total that is known is the sum of what is named, each step's
      usage counted once, and it is unknown exactly when something counted does not name what is limited. */
  lemma {:induction false} RebuiltIsSums(budget: Option<RunBudget>, accounted: set<string>, events: seq<Event>)
    ensures RebuiltFrom(budget, accounted, events)
         == if forall i :: 0 <= i < |events| && Counted(accounted, events[i]).Some? ==>
                 Accountable(budget, Counted(accounted, events[i]).value)
            then Some(Spend(TokensIn(accounted, events), CostIn(accounted, events))) else None
  {
    hide Accountable, TokensOf, CostOf, Add, Counted;
    if events != [] {
      var n := |events| - 1;
      RebuiltIsSums(budget, accounted, events[..n]);
      assert forall i :: 0 <= i < n ==> events[..n][i] == events[i];
      CountedAdds(accounted, events[n]);
    }
  }

  lemma CountedAdds(accounted: set<string>, e: Event)
    ensures match Counted(accounted, e)
            case None => TokensOf(accounted, e) == 0 && CostOf(accounted, e) == 0.0
            case Some(usage) =>
              forall spent: Spend :: Add(spent, usage) == Spend(spent.tokens + TokensOf(accounted, e), spent.cost + CostOf(accounted, e))
  {
  }
}
