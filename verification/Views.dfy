/** What a Track says of its run to a client (intents.py): the view of the run and its steps, and the turns asked
    of it. Each is a fold over the whole Track; RunViews.dfy keeps them current by reading only what is new. */
module Views {
  import opened Wrappers
  import opened RunMachine
  import opened Ledger
  import opened LedgerSound
  import opened TrackLaws
  import Readers

  /** A step's state: pending, or one of the run's states. */
  datatype StepState = Pending | Is(state: RunState)

  datatype StepView = StepView(state: StepState, attempt: Option<nat>, error: Option<string>, output: Option<Kept>)

  const UNTRIED := StepView(Pending, None, None, None)

  /** Who submitted the run, its name and its times are carried, and left out. */
  datatype View = View(state: RunState, op: Op, steps: map<string, StepView>, cancelRequestedBy: Option<string>, error: Option<string>)

  datatype Viewed = NotSubmitted | Unreadable | Shows(view: View)

  // ---- A run's view -----------------------------------------------------------------------------

  /** `steps` and `open` as the loop of `_view` leaves them. */
  datatype Drawn = Drawn(steps: map<string, StepView>, open: set<string>, error: Option<string>)

  function Blank(op: Op): Drawn {
    Drawn(map k | k in Names(op) :: UNTRIED, {}, None)
  }

  function NonEmpty(text: string, otherwise: string): string {
    if text == "" then otherwise else text
  }

  function DrawOne(d: Drawn, e: Event): Drawn {
    match e
    case RunFailed(_, error, _) => d.(error := Some(NonEmpty(error, "failed")))
    case BudgetStopped(_, _) => d.(error := Some("budget_exceeded"))
    case RetryRequested(_, _) => d.(error := None)
    case StepStarted(s, n) =>
      if s !in d.steps then d
      else d.(steps := d.steps[s := d.steps[s].(state := Is(Running), attempt := Some(n), error := None)], open := d.open + {s})
    case GateEscalated(s, _, _) =>
      if s !in d.steps then d
      else d.(steps := d.steps[s := d.steps[s].(state := Is(WaitingAtGate))], open := d.open + {s})
    case StepCompleted(s, _, _, result, _) =>
      if s !in d.steps then d
      else d.(steps := d.steps[s := d.steps[s].(state := Is(Completed), output := Some(result))], open := d.open - {s})
    case StepFailed(s, _, _, error, _) =>
      if s !in d.steps then d
      else d.(steps := d.steps[s := d.steps[s].(state := Is(Failed), error := Some(error))], open := d.open - {s})
    case _ => d
  }

  function Draw(op: Op, events: seq<Event>): (d: Drawn)
    ensures d.open <= d.steps.Keys
  {
    if events == [] then Blank(op) else DrawOne(Draw(op, events[..|events| - 1]), events[|events| - 1])
  }

  /** A step that was running, or waiting at its Gate, when its run ended, ended as the run did. */
  function Closed(d: Drawn, state: RunState): map<string, StepView> {
    map s | s in d.steps :: if state.Ended() && s in d.open then d.steps[s].(state := Is(state)) else d.steps[s]
  }

  function ViewOf(events: seq<Event>): Viewed {
    match ReplayOf(events)
    case NeverSubmitted => NotSubmitted
    case Refused => Unreadable
    case At(run) =>
      match Fold(events).op
      case None => Unreadable
      case Some(op) =>
        var d := Draw(op, events);
        Shows(View(run.state, op, Closed(d, run.state), CancelRequestOf(events), d.error))
  }

  /** `next(event for event in events if op_submitted)` */
  method FirstSubmission(events: seq<Event>) returns (op: Option<Op>)
    ensures op == Fold(events).op
  {
    hide Post;
    op := None;
    for i := 0 to |events|
      invariant op == Fold(events[..i]).op
    {
      PrefixFold(events, i);
      PostOp(Fold(events[..i]), events[i]);
      if op.None? && events[i].OpSubmitted? {
        op := Some(events[i].op);
      }
    }
    assert events[..|events|] == events;
  }

  /** `_view` */
  method Build(events: seq<Event>) returns (viewed: Viewed)
    ensures viewed == ViewOf(events)
  {
    hide Fold, ReplayOf, CancelRequestOf;
    var replayed := Replay(events);
    if !replayed.At? {
      return if replayed.Refused? then Unreadable else NotSubmitted;
    }
    var submission := FirstSubmission(events);
    if submission.None? {
      return Unreadable;
    }
    var op := submission.value;
    var cancelRequestedBy := Readers.CancelRequest(events);
    var d := Blank(op);
    for i := 0 to |events|
      invariant d == Draw(op, events[..i])
    {
      assert events[..i + 1][..i] == events[..i];
      d := DrawOne(d, events[i]);
    }
    assert events[..|events|] == events;
    var steps, rest := d.steps, if replayed.run.state.Ended() then d.open else {};
    while rest != {}
      invariant steps.Keys == d.steps.Keys && rest <= d.open
      invariant !replayed.run.state.Ended() ==> rest == {}
      invariant forall s :: s in steps ==>
                  steps[s] == if replayed.run.state.Ended() && s in d.open - rest
                              then d.steps[s].(state := Is(replayed.run.state)) else d.steps[s]
      decreases |rest|
    {
      var name :| name in rest;
      steps := steps[name := steps[name].(state := Is(replayed.run.state))];
      rest := rest - {name};
    }
    assert steps == Closed(d, replayed.run.state);
    viewed := Shows(View(replayed.run.state, op, steps, cancelRequestedBy, d.error));
  }

  predicate Unfinished(step: StepView) {
    step.state == Is(Running) || step.state == Is(WaitingAtGate)
  }

  lemma {:induction false} UnfinishedIsOpen(op: Op, events: seq<Event>, s: string)
    requires s in Draw(op, events).steps && Unfinished(Draw(op, events).steps[s])
    ensures s in Draw(op, events).open
  {
    if events != [] {
      if s in Draw(op, events[..|events| - 1]).steps && Unfinished(Draw(op, events[..|events| - 1]).steps[s]) {
        UnfinishedIsOpen(op, events[..|events| - 1], s);
      }
    }
  }

  /** Over any events: the view of a run that has ended shows no step still running, or still at its Gate. */
  lemma EndedShowsNothingOpen(events: seq<Event>, s: string)
    requires ViewOf(events).Shows? && ViewOf(events).view.state.Ended() && s in ViewOf(events).view.steps
    ensures !Unfinished(ViewOf(events).view.steps[s])
  {
    hide Draw, Fold, ReplayOf;
    var op := ViewOf(events).view.op;
    if Unfinished(Draw(op, events).steps[s]) {
      UnfinishedIsOpen(op, events, s);
    }
  }

  // ---- What a step's view is, from the events about it ------------------------------------------

  predicate Starts(e: Event, s: string) {
    e.StepStarted? && e.step == s
  }

  predicate Fails(e: Event, s: string) {
    e.StepFailed? && e.step == s
  }

  predicate CompletesIt(e: Event, s: string) {
    e.StepCompleted? && e.step == s
  }

  predicate Escalates(e: Event, s: string) {
    e.GateEscalated? && e.step == s
  }

  predicate About(e: Event, s: string) {
    Starts(e, s) || Fails(e, s) || CompletesIt(e, s) || Escalates(e, s)
  }

  /** The state a step is left in by the last event about it. */
  function StateBy(e: Event): StepState {
    match e
    case StepStarted(_, _) => Is(Running)
    case GateEscalated(_, _, _) => Is(WaitingAtGate)
    case StepCompleted(_, _, _, _, _) => Is(Completed)
    case StepFailed(_, _, _, _, _) => Is(Failed)
    case _ => Pending
  }

  /** No event from `from` on is about the step, starts it, starts or fails it, or completes it. */
  predicate NoneAbout(events: seq<Event>, from: nat, s: string) {
    forall j :: from <= j < |events| ==> !About(events[j], s)
  }

  predicate NoStart(events: seq<Event>, from: nat, s: string) {
    forall j :: from <= j < |events| ==> !Starts(events[j], s)
  }

  predicate NoReport(events: seq<Event>, from: nat, s: string) {
    forall j :: from <= j < |events| ==> !Starts(events[j], s) && !Fails(events[j], s)
  }

  predicate NoCompletion(events: seq<Event>, from: nat, s: string) {
    forall j :: from <= j < |events| ==> !CompletesIt(events[j], s)
  }

  /** Its state is by the last event about it. */
  ghost predicate StateAsTold(events: seq<Event>, s: string, view: StepView, open: bool) {
    && (NoneAbout(events, 0, s) ==> view.state.Pending? && !open)
    && (forall k :: 0 <= k < |events| && About(events[k], s) && NoneAbout(events, k + 1, s) ==>
          view.state == StateBy(events[k]) && (open <==> Starts(events[k], s) || Escalates(events[k], s)))
  }

  /** Its attempt is the last that started. */
  ghost predicate AttemptAsTold(events: seq<Event>, s: string, view: StepView) {
    && (NoStart(events, 0, s) ==> view.attempt.None?)
    && (forall k :: 0 <= k < |events| && Starts(events[k], s) && NoStart(events, k + 1, s) ==>
          view.attempt == Some(events[k].attempt))
  }

  /** Its error is that of its last failure, unless it started since. */
  ghost predicate ErrorAsTold(events: seq<Event>, s: string, view: StepView) {
    && (NoReport(events, 0, s) ==> view.error.None?)
    && (forall k :: 0 <= k < |events| && (Fails(events[k], s) || Starts(events[k], s)) && NoReport(events, k + 1, s) ==>
          view.error == if Fails(events[k], s) then Some(events[k].error) else None)
  }

  /** Its output is the last it completed with. */
  ghost predicate OutputAsTold(events: seq<Event>, s: string, view: StepView) {
    && (NoCompletion(events, 0, s) ==> view.output.None?)
    && (forall k :: 0 <= k < |events| && CompletesIt(events[k], s) && NoCompletion(events, k + 1, s) ==>
          view.output == Some(events[k].result))
  }

  ghost predicate StepAsTold(events: seq<Event>, s: string, view: StepView, open: bool) {
    && StateAsTold(events, s, view, open) && AttemptAsTold(events, s, view)
    && ErrorAsTold(events, s, view) && OutputAsTold(events, s, view)
  }

  lemma StateSnoc(before: seq<Event>, e: Event, s: string, d: Drawn)
    requires s in d.steps && StateAsTold(before, s, d.steps[s], s in d.open)
    ensures s in DrawOne(d, e).steps && StateAsTold(before + [e], s, DrawOne(d, e).steps[s], s in DrawOne(d, e).open)
  {
    var events := before + [e];
    assert events[|before|] == e && forall j :: 0 <= j < |before| ==> events[j] == before[j];
    forall k: nat | k <= |before| ensures NoneAbout(events, k, s) <==> NoneAbout(before, k, s) && !About(e, s) {
      assert forall j :: k <= j < |before| ==> events[j] == before[j];
    }
    hide NoneAbout;
  }

  lemma AttemptSnoc(before: seq<Event>, e: Event, s: string, d: Drawn)
    requires s in d.steps && AttemptAsTold(before, s, d.steps[s])
    ensures s in DrawOne(d, e).steps && AttemptAsTold(before + [e], s, DrawOne(d, e).steps[s])
  {
    var events := before + [e];
    assert events[|before|] == e && forall j :: 0 <= j < |before| ==> events[j] == before[j];
    forall k: nat | k <= |before| ensures NoStart(events, k, s) <==> NoStart(before, k, s) && !Starts(e, s) {
      assert forall j :: k <= j < |before| ==> events[j] == before[j];
    }
    hide NoStart;
  }

  lemma ErrorSnoc(before: seq<Event>, e: Event, s: string, d: Drawn)
    requires s in d.steps && ErrorAsTold(before, s, d.steps[s])
    ensures s in DrawOne(d, e).steps && ErrorAsTold(before + [e], s, DrawOne(d, e).steps[s])
  {
    var events := before + [e];
    assert events[|before|] == e && forall j :: 0 <= j < |before| ==> events[j] == before[j];
    forall k: nat | k <= |before| ensures NoReport(events, k, s) <==> NoReport(before, k, s) && !Starts(e, s) && !Fails(e, s) {
      assert forall j :: k <= j < |before| ==> events[j] == before[j];
    }
    hide NoReport;
  }

  lemma OutputSnoc(before: seq<Event>, e: Event, s: string, d: Drawn)
    requires s in d.steps && OutputAsTold(before, s, d.steps[s])
    ensures s in DrawOne(d, e).steps && OutputAsTold(before + [e], s, DrawOne(d, e).steps[s])
  {
    var events := before + [e];
    assert events[|before|] == e && forall j :: 0 <= j < |before| ==> events[j] == before[j];
    forall k: nat | k <= |before| ensures NoCompletion(events, k, s) <==> NoCompletion(before, k, s) && !CompletesIt(e, s) {
      assert forall j :: k <= j < |before| ==> events[j] == before[j];
    }
    hide NoCompletion;
  }

  lemma {:induction false} DrawnAsTold(op: Op, events: seq<Event>, s: string)
    requires s in Names(op)
    ensures s in Draw(op, events).steps && StepAsTold(events, s, Draw(op, events).steps[s], s in Draw(op, events).open)
  {
    hide StateAsTold, AttemptAsTold, ErrorAsTold, OutputAsTold, DrawOne;
    if events == [] {
      UntriedAsTold(op, s);
    } else {
      var n := |events| - 1;
      DrawnAsTold(op, events[..n], s);
      var d := Draw(op, events[..n]);
      StateSnoc(events[..n], events[n], s, d);
      AttemptSnoc(events[..n], events[n], s, d);
      ErrorSnoc(events[..n], events[n], s, d);
      OutputSnoc(events[..n], events[n], s, d);
      assert events == events[..n] + [events[n]];
    }
  }

  lemma UntriedAsTold(op: Op, s: string)
    requires s in Names(op)
    ensures s in Blank(op).steps && StepAsTold([], s, Blank(op).steps[s], s in Blank(op).open)
  {
  }

  /** Over any events: each step of a view is as the events about it tell, and ended with its run if it was still running,
      or at its Gate. The view has a step for each name of the Op, and for no other. */
  lemma ViewAsTold(events: seq<Event>, s: string)
    requires ViewOf(events).Shows?
    ensures var view := ViewOf(events).view;
            && (s in view.steps <==> s in Names(view.op))
            && (s in view.steps ==>
                  exists told: StepView, open ::
                    && StepAsTold(events, s, told, open)
                    && view.steps[s] == if open && view.state.Ended() then told.(state := Is(view.state)) else told)
  {
    hide Draw, Fold, ReplayOf, StepAsTold, CancelRequestOf;
    var op := ViewOf(events).view.op;
    DrawnKeys(op, events);
    if s in Names(op) {
      DrawnAsTold(op, events, s);
      var d := Draw(op, events);
      assert StepAsTold(events, s, d.steps[s], s in d.open);
    }
  }

  /** What a run's error is by the last event that says: an end that failed it, or a retry since. */
  predicate SaysError(e: Event) {
    e.RunFailed? || e.BudgetStopped? || e.RetryRequested?
  }

  lemma {:induction false} DrawnError(op: Op, events: seq<Event>, k: nat)
    requires k < |events| && SaysError(events[k]) && forall j :: k < j < |events| ==> !SaysError(events[j])
    ensures Draw(op, events).error == match events[k]
                                      case RunFailed(_, error, _) => Some(if |error| > 0 then error else "failed")
                                      case BudgetStopped(_, _) => Some("budget_exceeded")
                                      case _ => None
  {
    var n := |events| - 1;
    if k < n {
      DrawnError(op, events[..n], k);
    }
  }

  lemma {:induction false} NoError(op: Op, events: seq<Event>)
    requires forall j :: 0 <= j < |events| ==> !SaysError(events[j])
    ensures Draw(op, events).error.None?
  {
    if events != [] {
      NoError(op, events[..|events| - 1]);
    }
  }

  /** Over any events: a view's state is the run's as it replays, its Op the one submitted first, who asked for its cancel
      the request that stands, and its error that of the last end that failed it, unless it was retried since. */
  lemma RunAsTold(events: seq<Event>)
    requires ViewOf(events).Shows?
    ensures var view := ViewOf(events).view;
            && ReplayOf(events).At? && view.state == ReplayOf(events).run.state
            && view.cancelRequestedBy == CancelRequestOf(events)
            && (exists k: nat :: IsSubmission(events, k) && events[k].op == view.op)
            && ((forall j :: 0 <= j < |events| ==> !SaysError(events[j])) ==> view.error.None?)
            && forall k :: 0 <= k < |events| && SaysError(events[k]) && (forall j :: k < j < |events| ==> !SaysError(events[j])) ==>
                 view.error == match events[k]
                               case RunFailed(_, error, _) => Some(if |error| > 0 then error else "failed")
                               case BudgetStopped(_, _) => Some("budget_exceeded")
                               case _ => None
  {
    hide Draw, Fold, ReplayOf, CancelRequestOf;
    var op := ViewOf(events).view.op;
    SubmissionIsFirst(events);
    if forall j :: 0 <= j < |events| ==> !SaysError(events[j]) {
      NoError(op, events);
    }
    forall k: nat | k < |events| && SaysError(events[k]) && forall j :: k < j < |events| ==> !SaysError(events[j])
      ensures Draw(op, events).error == match events[k]
                                        case RunFailed(_, error, _) => Some(if |error| > 0 then error else "failed")
                                        case BudgetStopped(_, _) => Some("budget_exceeded")
                                        case _ => None
    {
      DrawnError(op, events, k);
    }
  }

  // ---- On a Track the runner writes -------------------------------------------------------------

  /** What the drawing shows of a step, given whether the ledger has it completed. */
  predicate ShowsCompletion(d: Drawn, completed: seq<string>, s: string) {
    s in d.steps ==> if s in completed then d.steps[s].state == Is(Completed) && s !in d.open else d.steps[s].state != Is(Completed)
  }

  lemma CompletionStep(c: Config, b: Book, asked: Option<string>, e: Event, d: Drawn, s: string)
    requires Sound(c, b) && Allowed(c, b, asked, e) && ShowsCompletion(d, b.completed, s)
    ensures ShowsCompletion(DrawOne(d, e), Post(b, e).completed, s)
  {
    hide ReplayOne;
    PostCompleted(b, e);
    if e.StepStarted? || e.GateEscalated? || e.StepFailed? {
      WorksOnNext(c, b, asked, e);
    }
  }

  lemma WorksOnNext(c: Config, b: Book, asked: Option<string>, e: Event)
    requires Sound(c, b) && Allowed(c, b, asked, e) && (e.StepStarted? || e.GateEscalated? || e.StepFailed?)
    ensures e.step !in b.completed
  {
    NextNotCompleted(b, e.step);
  }

  lemma {:induction false} CompletionShown(c: Config, op: Op, t: seq<Event>, k: nat, s: string)
    requires Legal(c, t) && k <= |t|
    ensures ShowsCompletion(Draw(op, t[..k]), Fold(t[..k]).completed, s)
    decreases k
  {
    hide Fold, Post, Legal, Allowed, Sound, DrawOne, ShowsCompletion;
    if k == 0 {
      assert t[..0] == [];
      NothingCompleted(op, s);
    } else {
      CompletionShown(c, op, t, k - 1, s);
      OneEvent(c, t, k - 1);
      assert t[..k][..k - 1] == t[..k - 1];
      CompletionStep(c, Fold(t[..k - 1]), CancelRequestOf(t[..k - 1]), t[k - 1], Draw(op, t[..k - 1]), s);
    }
  }

  lemma NothingCompleted(op: Op, s: string)
    ensures ShowsCompletion(Draw(op, []), Fold([]).completed, s)
  {
    EmptyFold();
  }

  lemma CompletedMeansAll(c: Config, b: Book)
    requires Sound(c, b) && InState(b, Completed)
    ensures forall s :: s in Names(b.op.value) ==> s in b.completed
  {
    assert b.completed == Names(b.op.value);
  }

  lemma {:induction false} DrawnKeys(op: Op, events: seq<Event>)
    ensures Draw(op, events).steps.Keys == set s | s in Names(op)
  {
    if events != [] {
      DrawnKeys(op, events[..|events| - 1]);
    }
  }

  /** A client is shown a step completed exactly when the run has completed it: never while it is only running,
      waiting, or ended with the run, and never again as anything else, through any retries. */
  lemma ViewShowsCompleted(c: Config, t: seq<Event>, s: string)
    requires Legal(c, t) && ViewOf(t).Shows? && s in ViewOf(t).view.steps
    ensures ViewOf(t).view.steps[s].state == Is(Completed) <==> s in Fold(t).completed
  {
    hide Legal, Fold, Draw, ReplayOf, Sound;
    var op := ViewOf(t).view.op;
    CompletionShown(c, op, t, |t|, s);
    LegalSound(c, t, |t|);
    assert t[..|t|] == t;
    ReplayNeverRefuses(c, t);
    if ViewOf(t).view.state.Completed? {
      CompletedMeansAll(c, Fold(t));
      DrawnKeys(op, t);
    }
  }

  // ---- Turns ------------------------------------------------------------------------------------

  /** `EndedWith` is a turn still waiting when its run ended: the source shows it as failed, naming the run's state. */
  datatype TurnState = Waiting | AnsweredWith(answer: string) | FailedWith(error: string) | EndedWith(ended: RunState)

  datatype TurnView = TurnView(turn: string, text: string, state: TurnState)

  predicate OneEach(asked: seq<TurnView>) {
    forall i, j :: 0 <= i < j < |asked| ==> asked[i].turn != asked[j].turn
  }

  /** `asked[turn] = ...`: a dictionary keeps the place of a key it already holds. */
  function Put(asked: seq<TurnView>, view: TurnView): seq<TurnView> {
    if asked == [] then [view]
    else if asked[0].turn == view.turn then [view] + asked[1..]
    else [asked[0]] + Put(asked[1..], view)
  }

  function Settle(asked: seq<TurnView>, turn: string, state: TurnState): (r: seq<TurnView>)
    ensures |r| == |asked|
    ensures forall i :: 0 <= i < |r| ==> r[i] == if asked[i].turn == turn then asked[i].(state := state) else asked[i]
  {
    seq(|asked|, i requires 0 <= i < |asked| => if asked[i].turn == turn then asked[i].(state := state) else asked[i])
  }

  function AskOne(asked: seq<TurnView>, e: Event): seq<TurnView> {
    match e
    case TurnRequested(turn, text) => Put(asked, TurnView(turn, text, Waiting))
    case TurnAnswered(turn, text) => Settle(asked, turn, AnsweredWith(text))
    case TurnFailed(turn, error) => Settle(asked, turn, FailedWith(error))
    case _ => asked
  }

  function Asked(events: seq<Event>): seq<TurnView> {
    if events == [] then [] else AskOne(Asked(events[..|events| - 1]), events[|events| - 1])
  }

  function Ending(asked: seq<TurnView>, state: RunState): (r: seq<TurnView>)
    ensures |r| == |asked|
    ensures forall i :: 0 <= i < |r| ==> r[i] == if asked[i].state.Waiting? then asked[i].(state := EndedWith(state)) else asked[i]
  {
    seq(|asked|, i requires 0 <= i < |asked| => if asked[i].state.Waiting? then asked[i].(state := EndedWith(state)) else asked[i])
  }

  /** `turns`: none when the Track cannot be replayed. */
  function TurnsOf(events: seq<Event>): Option<seq<TurnView>> {
    match ReplayOf(events)
    case Refused => None
    case NeverSubmitted => Some(Asked(events))
    case At(run) => Some(if run.state.Ended() then Ending(Asked(events), run.state) else Asked(events))
  }

  method Turns(events: seq<Event>) returns (r: Option<seq<TurnView>>)
    ensures r == TurnsOf(events)
  {
    hide ReplayOf;
    var asked: seq<TurnView> := [];
    for i := 0 to |events|
      invariant asked == Asked(events[..i])
    {
      assert events[..i + 1][..i] == events[..i];
      asked := AskOne(asked, events[i]);
    }
    assert events[..|events|] == events;
    var replayed := Replay(events);
    if replayed.Refused? {
      return None;
    }
    if replayed.At? && replayed.run.state.Ended() {
      var ended := asked;
      for i := 0 to |asked|
        invariant |ended| == |asked|
        invariant forall j :: 0 <= j < |asked| ==> ended[j] == if j < i then Ending(asked, replayed.run.state)[j] else asked[j]
      {
        if asked[i].state.Waiting? {
          ended := ended[i := asked[i].(state := EndedWith(replayed.run.state))];
        }
      }
      assert ended == Ending(asked, replayed.run.state);
      return Some(ended);
    }
    r := Some(asked);
  }

  /** Over any events: no turn reads as waiting once its run has ended. */
  lemma NoTurnWaitsAfterTheEnd(events: seq<Event>, i: nat)
    requires TurnsOf(events).Some? && i < |TurnsOf(events).value|
    requires ReplayOf(events).At? && ReplayOf(events).run.state.Ended()
    ensures !TurnsOf(events).value[i].state.Waiting?
  {
  }
}
