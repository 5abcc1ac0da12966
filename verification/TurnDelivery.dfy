/** Turns, from asking to settling (intents.py, controller.py): clients ask while the run advances, one thread of
    the controller hands the waiting turns to the run's worker in order, and the controller may stop anywhere. */
module TurnDelivery {
  import opened Wrappers
  import opened RunMachine
  import opened Views

  /** Where the controller's delivering thread for the run is. */
  datatype Delivery = Looking | Handing(turn: string) | Recording(turn: string, outcome: Event)

  datatype State = State(track: seq<Event>, thread: Option<Delivery>)

  const START := State([], None)

  /** What handing a turn to the worker came to: `Later` is a worker that has not opened its session yet. */
  datatype Handed = Replied(text: string) | Raised(error: string) | Later

  datatype Action =
    | Ask(turn: string, text: string)
    | Other(e: Event)
    | Spawn
    | Look(worker: bool)
    | Hand(handed: Handed)
    | Record
    | Stop

  predicate IsTurn(e: Event) {
    e.TurnRequested? || e.TurnAnswered? || e.TurnFailed?
  }

  /** The ids of the turns asked, and of those settled, each in the order of the Track. */
  function AskedIds(track: seq<Event>): seq<string> {
    if track == [] then []
    else
      var e := track[|track| - 1];
      AskedIds(track[..|track| - 1]) + if e.TurnRequested? then [e.turn] else []
  }

  function SettledIds(track: seq<Event>): seq<string> {
    if track == [] then []
    else
      var e := track[|track| - 1];
      SettledIds(track[..|track| - 1]) + if e.TurnAnswered? || e.TurnFailed? then [e.turn] else []
  }

  /** `request_turn`'s condition, on the Track the request joins. */
  predicate Advancing(track: seq<Event>) {
    var replayed := ReplayOf(track);
    replayed.At? && !replayed.run.state.Ended() && !replayed.run.state.WaitingAtGate?
  }

  /** The first turn waiting, as the thread reads it. */
  function FirstWaiting(asked: seq<TurnView>): Option<string> {
    if asked == [] then None
    else if asked[0].state.Waiting? then Some(asked[0].turn)
    else FirstWaiting(asked[1..])
  }

  predicate Enabled(s: State, a: Action) {
    match a
    case Ask(turn, _) => Advancing(s.track) && turn !in AskedIds(s.track)
    case Other(e) => !IsTurn(e)
    case Spawn => s.thread.None?
    case Look(_) => s.thread == Some(Looking)
    case Hand(_) => s.thread.Some? && s.thread.value.Handing?
    case Record => s.thread.Some? && s.thread.value.Recording?
    case Stop => true
  }

  function Looks(s: State, worker: bool): Option<Delivery> {
    var turns := TurnsOf(s.track);
    if turns.None? || !worker then None
    else
      match FirstWaiting(turns.value)
      case None => None
      case Some(turn) => Some(Handing(turn))
  }

  function Do(s: State, a: Action): State
    requires Enabled(s, a)
  {
    match a
    case Ask(turn, text) => s.(track := s.track + [TurnRequested(turn, text)])
    case Other(e) => s.(track := s.track + [e])
    case Spawn => s.(thread := Some(Looking))
    case Look(worker) => s.(thread := Looks(s, worker))
    case Hand(handed) =>
      var turn := s.thread.value.turn;
      s.(thread := match handed
                   case Replied(text) => Some(Recording(turn, TurnAnswered(turn, text)))
                   case Raised(error) => Some(Recording(turn, TurnFailed(turn, error)))
                   case Later => None)
    case Record => s.(track := s.track + [s.thread.value.outcome], thread := Some(Looking))
    case Stop => s.(thread := None)
  }

  ghost predicate Step(s: State, s': State) {
    exists a :: Enabled(s, a) && s' == Do(s, a)
  }

  ghost predicate StepAt(states: seq<State>, k: nat) {
    k + 1 < |states| ==> Step(states[k], states[k + 1])
  }

  ghost predicate Behaviour(states: seq<State>) {
    && |states| > 0 && states[0] == START
    && forall k: nat :: StepAt(states, k)
  }

  // ---- What every interleaving keeps ------------------------------------------------------------

  predicate DistinctIds(ids: seq<string>) {
    forall i, j :: 0 <= i < j < |ids| ==> ids[i] != ids[j]
  }

  /** The turns as the Track tells them: in the order asked, the first `n` settled and the rest waiting. */
  predicate Told(asked: seq<TurnView>, ids: seq<string>, n: nat) {
    && |asked| == |ids| && n <= |ids|
    && forall i :: 0 <= i < |ids| ==> asked[i].turn == ids[i] && (asked[i].state.Waiting? <==> i >= n)
                                      && !asked[i].state.EndedWith?
  }

  predicate Next(s: State, turn: string) {
    var n := |SettledIds(s.track)|;
    n < |AskedIds(s.track)| && AskedIds(s.track)[n] == turn
  }

  ghost predicate Inv(s: State) {
    && DistinctIds(AskedIds(s.track))
    && SettledIds(s.track) <= AskedIds(s.track)
    && Told(Asked(s.track), AskedIds(s.track), |SettledIds(s.track)|)
    && (s.thread.Some? ==>
          match s.thread.value
          case Looking => true
          case Handing(turn) => Next(s, turn)
          case Recording(turn, outcome) =>
            Next(s, turn) && (outcome.TurnAnswered? || outcome.TurnFailed?) && outcome.turn == turn)
  }

  lemma IdsSnoc(track: seq<Event>, e: Event)
    ensures AskedIds(track + [e]) == AskedIds(track) + if e.TurnRequested? then [e.turn] else []
    ensures SettledIds(track + [e]) == SettledIds(track) + if e.TurnAnswered? || e.TurnFailed? then [e.turn] else []
    ensures Asked(track + [e]) == AskOne(Asked(track), e)
  {
    assert (track + [e])[..|track|] == track;
  }

  lemma {:induction false} PutFresh(asked: seq<TurnView>, view: TurnView)
    requires forall i :: 0 <= i < |asked| ==> asked[i].turn != view.turn
    ensures Put(asked, view) == asked + [view]
  {
    if asked != [] {
      PutFresh(asked[1..], view);
      assert asked == [asked[0]] + asked[1..];
    }
  }

  lemma {:induction false} FirstWaitingIs(asked: seq<TurnView>)
    ensures FirstWaiting(asked).Some? ==>
              exists i :: 0 <= i < |asked| && asked[i].turn == FirstWaiting(asked).value && asked[i].state.Waiting?
                          && forall j :: 0 <= j < i ==> !asked[j].state.Waiting?
  {
    if asked != [] && !asked[0].state.Waiting? && FirstWaiting(asked).Some? {
      FirstWaitingIs(asked[1..]);
      var i :| 0 <= i < |asked| - 1 && asked[1..][i].turn == FirstWaiting(asked).value && asked[1..][i].state.Waiting?
               && forall j :: 0 <= j < i ==> !asked[1..][j].state.Waiting?;
      assert asked[i + 1] == asked[1..][i];
      assert forall j :: 0 <= j < i + 1 ==> j == 0 || asked[j] == asked[1..][j - 1];
    }
  }

  lemma AskKeeps(s: State, a: Action)
    requires Inv(s) && Enabled(s, a) && a.Ask?
    ensures Inv(Do(s, a))
  {
    hide Asked, AskedIds, SettledIds, ReplayOf, Put;
    IdsSnoc(s.track, TurnRequested(a.turn, a.text));
    PutFresh(Asked(s.track), TurnView(a.turn, a.text, Waiting));
  }

  lemma OtherKeeps(s: State, a: Action)
    requires Inv(s) && Enabled(s, a) && a.Other?
    ensures Inv(Do(s, a))
  {
    hide Asked, AskedIds, SettledIds;
    IdsSnoc(s.track, a.e);
  }

  lemma RecordKeeps(s: State)
    requires Inv(s) && Enabled(s, Record)
    ensures Inv(Do(s, Record))
  {
    hide Asked, AskedIds, SettledIds;
    IdsSnoc(s.track, s.thread.value.outcome);
    var ids, n := AskedIds(s.track), |SettledIds(s.track)|;
    assert SettledIds(s.track) + [ids[n]] == ids[..n + 1];
  }

  lemma LookKeeps(s: State, worker: bool)
    requires Inv(s) && Enabled(s, Look(worker))
    ensures Inv(Do(s, Look(worker)))
  {
    hide Asked, AskedIds, SettledIds, ReplayOf, FirstWaiting;
    var turns := TurnsOf(s.track);
    if turns.Some? {
      FirstWaitingIs(turns.value);
    }
  }

  lemma StepKeeps(s: State, a: Action)
    requires Inv(s) && Enabled(s, a)
    ensures Inv(Do(s, a))
  {
    hide Asked, AskedIds, SettledIds, ReplayOf, TurnsOf, FirstWaiting;
    match a
    case Ask(_, _) => AskKeeps(s, a);
    case Other(_) => OtherKeeps(s, a);
    case Record => RecordKeeps(s);
    case Look(worker) => LookKeeps(s, worker);
    case _ =>
  }

  lemma {:induction false} BehaviourKeeps(states: seq<State>, k: nat)
    requires Behaviour(states) && k < |states|
    ensures Inv(states[k])
  {
    hide Inv, Enabled, Do;
    if k == 0 {
      StartInv();
    } else {
      BehaviourKeeps(states, k - 1);
      assert StepAt(states, k - 1);
      var a :| Enabled(states[k - 1], a) && states[k] == Do(states[k - 1], a);
      StepKeeps(states[k - 1], a);
    }
  }

  lemma StartInv()
    ensures Inv(START)
  {
  }

  /** Turns are settled in the order they were asked, each at most once, whatever asks, ends, retries and
      restarts come between. */
  lemma SettledInOrder(states: seq<State>, k: nat)
    requires Behaviour(states) && k < |states|
    ensures SettledIds(states[k].track) <= AskedIds(states[k].track)
    ensures DistinctIds(SettledIds(states[k].track))
  {
    hide Behaviour, AskedIds, SettledIds, Told, ReplayOf;
    BehaviourKeeps(states, k);
    var asked, settled := AskedIds(states[k].track), SettledIds(states[k].track);
    assert forall i :: 0 <= i < |settled| ==> settled[i] == asked[i];
  }

  /** What a client reads: every turn asked, in order; waiting exactly when it is not settled and the run has
      not ended, and ended with the run exactly when it is not settled and the run has. */
  lemma TurnsRead(states: seq<State>, k: nat, i: nat)
    requires Behaviour(states) && k < |states| && TurnsOf(states[k].track).Some?
    ensures |TurnsOf(states[k].track).value| == |AskedIds(states[k].track)|
    ensures i < |AskedIds(states[k].track)| ==>
              var view, replayed := TurnsOf(states[k].track).value[i], ReplayOf(states[k].track);
              && view.turn == AskedIds(states[k].track)[i]
              && (view.state.Waiting? <==> i >= |SettledIds(states[k].track)| && !(replayed.At? && replayed.run.state.Ended()))
              && (view.state.EndedWith? <==> i >= |SettledIds(states[k].track)| && replayed.At? && replayed.run.state.Ended())
              && (view.state.EndedWith? ==> view.state.ended == replayed.run.state)
  {
    hide Behaviour, AskedIds, SettledIds, ReplayOf, Asked;
    BehaviourKeeps(states, k);
  }

  // ---- What was answered ------------------------------------------------------------------------

  /** Each turn carries the text it was asked with, and is settled as the Track records; and every settlement that the
      Track records is shown by its turn. */
  ghost predicate ToldAs(track: seq<Event>) {
    && (forall i :: 0 <= i < |Asked(track)| ==> ShownAs(track, Asked(track)[i]))
    && (forall m :: 0 <= m < |track| ==> SettlementShown(Asked(track), track[m]))
  }

  predicate ShownAs(track: seq<Event>, view: TurnView) {
    && TurnRequested(view.turn, view.text) in track
    && (view.state.AnsweredWith? ==> TurnAnswered(view.turn, view.state.answer) in track)
    && (view.state.FailedWith? ==> TurnFailed(view.turn, view.state.error) in track)
  }

  predicate SettlementShown(asked: seq<TurnView>, e: Event) {
    && (e.TurnAnswered? ==> exists i :: 0 <= i < |asked| && asked[i].turn == e.turn && asked[i].state == AnsweredWith(e.text))
    && (e.TurnFailed? ==> exists i :: 0 <= i < |asked| && asked[i].turn == e.turn && asked[i].state == FailedWith(e.error))
  }

  lemma AskTells(s: State, a: Action)
    requires Inv(s) && ToldAs(s.track) && Enabled(s, a) && a.Ask?
    ensures ToldAs(Do(s, a).track)
  {
    hide Asked, AskedIds, SettledIds, ReplayOf, Put;
    var view := TurnView(a.turn, a.text, Waiting);
    IdsSnoc(s.track, TurnRequested(a.turn, a.text));
    PutFresh(Asked(s.track), view);
    var before, after, track := Asked(s.track), Asked(Do(s, a).track), Do(s, a).track;
    assert after == before + [view];
    assert track[|s.track|] == TurnRequested(a.turn, a.text);
    forall i | 0 <= i < |after| ensures ShownAs(track, after[i]) {
      assert i < |before| ==> ShownAs(s.track, before[i]);
    }
    forall m | 0 <= m < |track| ensures SettlementShown(after, track[m]) {
      if m < |s.track| {
        assert SettlementShown(before, s.track[m]);
        StillShown(before, after, track[m]);
      }
    }
  }

  lemma StillShown(before: seq<TurnView>, after: seq<TurnView>, e: Event)
    requires before <= after && SettlementShown(before, e)
    ensures SettlementShown(after, e)
  {
  }

  lemma OtherTells(s: State, a: Action)
    requires ToldAs(s.track) && Enabled(s, a) && a.Other?
    ensures ToldAs(Do(s, a).track)
  {
    hide Asked, ReplayOf;
    IdsSnoc(s.track, a.e);
    var track := Do(s, a).track;
    assert Asked(track) == Asked(s.track);
    forall i | 0 <= i < |Asked(track)| ensures ShownAs(track, Asked(track)[i]) {
      assert ShownAs(s.track, Asked(s.track)[i]);
    }
    forall m | 0 <= m < |track| ensures SettlementShown(Asked(track), track[m]) {
      assert m < |s.track| ==> SettlementShown(Asked(s.track), s.track[m]);
    }
  }

  lemma RecordTells(s: State)
    requires Inv(s) && ToldAs(s.track) && Enabled(s, Record)
    ensures ToldAs(Do(s, Record).track)
  {
    hide Asked, AskedIds, SettledIds;
    var e, n := s.thread.value.outcome, |SettledIds(s.track)|;
    IdsSnoc(s.track, e);
    var before, after, track := Asked(s.track), Asked(Do(s, Record).track), Do(s, Record).track;
    assert track[|s.track|] == e;
    assert forall i :: 0 <= i < |before| && i != n ==> after[i] == before[i];
    assert after[n] == before[n].(state := if e.TurnAnswered? then AnsweredWith(e.text) else FailedWith(e.error));
    forall i | 0 <= i < |after| ensures ShownAs(track, after[i]) {
      assert ShownAs(s.track, before[i]);
    }
    forall m | 0 <= m < |track| ensures SettlementShown(after, track[m]) {
      if m < |s.track| {
        assert SettlementShown(before, s.track[m]);
        SettledStaysShown(before, after, n, track[m]);
      }
    }
  }

  lemma SettledStaysShown(before: seq<TurnView>, after: seq<TurnView>, n: nat, e: Event)
    requires |after| == |before| && n < |before| && before[n].state.Waiting? && SettlementShown(before, e)
    requires forall i :: 0 <= i < |before| && i != n ==> after[i] == before[i]
    ensures SettlementShown(after, e)
  {
  }

  lemma StepTells(s: State, a: Action)
    requires Inv(s) && ToldAs(s.track) && Enabled(s, a)
    ensures ToldAs(Do(s, a).track)
  {
    hide Inv, ToldAs, ReplayOf, TurnsOf, FirstWaiting, AskedIds;
    match a
    case Ask(_, _) => AskTells(s, a);
    case Other(_) => OtherTells(s, a);
    case Record => RecordTells(s);
    case _ =>
  }

  lemma {:induction false} BehaviourTells(states: seq<State>, k: nat)
    requires Behaviour(states) && k < |states|
    ensures ToldAs(states[k].track)
  {
    hide Inv, ToldAs, Enabled, Do;
    if k == 0 {
      NothingTold();
    } else {
      BehaviourTells(states, k - 1);
      BehaviourKeeps(states, k - 1);
      assert StepAt(states, k - 1);
      var a :| Enabled(states[k - 1], a) && states[k] == Do(states[k - 1], a);
      StepTells(states[k - 1], a);
    }
  }

  lemma NothingTold()
    ensures ToldAs(START.track)
  {
  }

  /** A turn is shown answered with a text exactly when that answer of it is on the Track, and failed with an error
      exactly when that failure is; and it shows the text it was asked with. */
  lemma TurnsShowTheirAnswers(states: seq<State>, k: nat, i: nat)
    requires Behaviour(states) && k < |states| && TurnsOf(states[k].track).Some? && i < |TurnsOf(states[k].track).value|
    ensures var view, track := TurnsOf(states[k].track).value[i], states[k].track;
            && TurnRequested(view.turn, view.text) in track
            && (forall answer :: view.state == AnsweredWith(answer) <==> TurnAnswered(view.turn, answer) in track)
            && (forall error :: view.state == FailedWith(error) <==> TurnFailed(view.turn, error) in track)
  {
    hide Behaviour, AskedIds, SettledIds, ReplayOf, Asked;
    BehaviourKeeps(states, k);
    BehaviourTells(states, k);
    var view, track := TurnsOf(states[k].track).value[i], states[k].track;
    var asked, ids := Asked(track), AskedIds(track);
    assert forall p, q :: 0 <= p < q < |asked| ==> asked[p].turn == ids[p] && asked[q].turn == ids[q];
    assert OneEach(asked) by { hide ToldAs; }
    AskedShowTheirAnswers(track, i);
  }

  lemma AskedShowTheirAnswers(track: seq<Event>, i: nat)
    requires ToldAs(track) && OneEach(Asked(track)) && i < |Asked(track)|
    ensures var view := Asked(track)[i];
            && TurnRequested(view.turn, view.text) in track
            && (forall answer :: view.state == AnsweredWith(answer) <==> TurnAnswered(view.turn, answer) in track)
            && (forall error :: view.state == FailedWith(error) <==> TurnFailed(view.turn, error) in track)
  {
    hide Asked;
    var asked, view := Asked(track), Asked(track)[i];
    assert ShownAs(track, view);
    forall answer | TurnAnswered(view.turn, answer) in track ensures view.state == AnsweredWith(answer) {
      var m :| 0 <= m < |track| && track[m] == TurnAnswered(view.turn, answer);
      assert SettlementShown(asked, track[m]);
    }
    forall error | TurnFailed(view.turn, error) in track ensures view.state == FailedWith(error) {
      var m :| 0 <= m < |track| && track[m] == TurnFailed(view.turn, error);
      assert SettlementShown(asked, track[m]);
    }
  }

  /** What handing a turn came to, as it is recorded. */
  predicate RecordsHanded(handed: Handed, turn: string, e: Event) {
    match handed
    case Replied(text) => e.TurnAnswered? && e.turn == turn && e.text == text
    case Raised(error) => e.TurnFailed? && e.turn == turn && e.error == error
    case Later => false
  }

  ghost predicate HandedAt(states: seq<State>, j: nat, turn: string, e: Event) {
    && j + 1 < |states| && states[j].thread == Some(Handing(turn))
    && exists handed :: states[j + 1] == Do(states[j], Hand(handed)) && RecordsHanded(handed, turn, e)
  }

  lemma {:induction false} RecordingWasHanded(states: seq<State>, k: nat) returns (j: nat)
    requires Behaviour(states) && k < |states| && states[k].thread.Some? && states[k].thread.value.Recording?
    ensures j < k && HandedAt(states, j, states[k].thread.value.turn, states[k].thread.value.outcome)
  {
    hide ReplayOf, TurnsOf, FirstWaiting, AskedIds;
    if k > 0 {
      assert StepAt(states, k - 1);
      var a :| Enabled(states[k - 1], a) && states[k] == Do(states[k - 1], a);
      if a.Hand? {
        j := k - 1;
        assert states[j + 1] == Do(states[j], Hand(a.handed));
        assert RecordsHanded(a.handed, states[k].thread.value.turn, states[k].thread.value.outcome);
      } else {
        j := RecordingWasHanded(states, k - 1);
      }
    }
  }

  /** What is recorded of a turn is what handing it to the worker came to: the answer it replied with, or the error it
      raised. */
  lemma SettledAsHanded(states: seq<State>, k: nat, e: Event) returns (j: nat)
    requires Behaviour(states) && k + 1 < |states| && states[k + 1].track == states[k].track + [e]
    requires e.TurnAnswered? || e.TurnFailed?
    ensures j < k && HandedAt(states, j, e.turn, e)
  {
    hide ReplayOf, TurnsOf, FirstWaiting, AskedIds, HandedAt;
    assert StepAt(states, k);
    var a :| Enabled(states[k], a) && states[k + 1] == Do(states[k], a);
    assert states[k + 1].track[|states[k].track|] == e;
    BehaviourKeeps(states, k);
    RecordingTurn(states[k]);
    j := RecordingWasHanded(states, k);
  }

  lemma RecordingTurn(s: State)
    requires Inv(s)
    ensures s.thread.Some? && s.thread.value.Recording? ==> s.thread.value.outcome.TurnAnswered? || s.thread.value.outcome.TurnFailed?
    ensures s.thread.Some? && s.thread.value.Recording? ==> s.thread.value.outcome.turn == s.thread.value.turn
  {
    hide Asked, AskedIds, SettledIds;
  }

  /** Once the worker replied or raised, that is what the thread records of the turn next, unless the controller stops
      first: nothing else comes of it. */
  lemma HandedIsRecorded(states: seq<State>, j: nat, k: nat, turn: string, handed: Handed) returns (e: Event)
    requires Behaviour(states) && j < k && k + 1 < |states| && !handed.Later?
    requires states[j].thread == Some(Handing(turn)) && states[j + 1] == Do(states[j], Hand(handed))
    ensures RecordsHanded(handed, turn, e) && states[j + 1].thread == Some(Recording(turn, e))
    ensures (forall m :: j < m <= k ==> states[m].thread == states[j + 1].thread) && states[k + 1].thread != states[j + 1].thread ==>
              || (states[k + 1].thread.None? && states[k + 1].track == states[k].track)
              || (states[k + 1].thread == Some(Looking) && states[k + 1].track == states[k].track + [e])
  {
    hide ReplayOf, TurnsOf, FirstWaiting, AskedIds;
    e := states[j + 1].thread.value.outcome;
    assert StepAt(states, k);
    var a :| Enabled(states[k], a) && states[k + 1] == Do(states[k], a);
  }
}
