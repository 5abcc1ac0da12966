/** What the process that accepts runs writes to a Track it does not advance (intents.py): a request to cancel and
    a turn, each appended only if its condition holds of the Track it joins, while others append. */
module Intents {
  import opened Wrappers
  import opened RunMachine
  import opened Ledger
  import opened TrackLaws
  import opened TrackStore
  import opened Views
  import opened RunViews
  import opened TurnDelivery

  const MAX_TURN_TEXT := 64 * 1024

  datatype Problem = NoSuchRun | RunEnded(state: RunState) | CannotBeRead | TextTooLong

  /** `still_wanted` */
  predicate StillWanted(events: seq<Event>) {
    var replayed := ReplayOf(events);
    replayed.At? && !replayed.run.state.Ended() && CancelRequestOf(events).None?
  }

  /** A run may be asked to cancel: it is on its way, or waits at its Gate, and a retry outlived each request before. */
  predicate Wanted(events: seq<Event>) {
    && ReplayOf(events).At? && ReplayOf(events).run.state in {Submitted, Running, WaitingAtGate}
    && Outlived(events)
  }

  lemma WantedExactly(events: seq<Event>)
    ensures StillWanted(events) <==> Wanted(events)
  {
    hide ReplayOf, CancelRequestOf;
    CancelRequestIsStanding(events);
  }

  /** A turn may be asked of a run: it is on its way, and does not wait at its Gate. */
  predicate TakesTurns(events: seq<Event>) {
    ReplayOf(events).At? && ReplayOf(events).run.state in {Submitted, Running}
  }

  lemma TakesTurnsExactly(events: seq<Event>)
    ensures Advancing(events) <==> TakesTurns(events)
  {
    hide ReplayOf;
  }

  /** Between any two requests to cancel there is a retry. */
  predicate RetriedBetween(events: seq<Event>) {
    forall i, j :: 0 <= i < j < |events| && events[i].CancelRequested? && events[j].CancelRequested? ==>
      exists m :: i < m < j && events[m].RetryRequested?
  }

  lemma WantedKeepsApart(events: seq<Event>, actor: string)
    requires RetriedBetween(events) && StillWanted(events)
    ensures RetriedBetween(events + [CancelRequested(actor)])
  {
    hide ReplayOf, CancelRequestOf;
    CancelRequestIsStanding(events);
    var on := events + [CancelRequested(actor)];
    forall i, j | 0 <= i < j < |on| && on[i].CancelRequested? && on[j].CancelRequested?
      ensures exists m :: i < m < j && on[m].RetryRequested?
    {
      assert on[i] == events[i];
      if j < |events| {
        var m :| i < m < j && events[m].RetryRequested?;
        assert on[m] == events[m];
      } else {
        var m :| i < m < |events| && events[m].RetryRequested?;
        assert on[m] == events[m];
      }
    }
  }

  function WhileWanted(): seq<Row> -> bool {
    rows => StillWanted(EventsOf(rows))
  }

  function WhileAdvancing(): seq<Row> -> bool {
    rows => Advancing(EventsOf(rows))
  }

  /** `describe` */
  method Describe(track: InMemoryTrackStore, run: string) returns (r: Viewed)
    requires track.Valid()
    ensures r == ViewOf(EventsOf(track.Log(run)))
  {
    hide ViewOf;
    track.WholeLog(run);
    var rows := track.Replay(run, 0);
    r := Build(EventsOf(rows));
  }

  /** `request_cancel`: the request joins the Track exactly when, as it lands, the run has not ended and holds
      none; so no call leaves two requests without a retry between them. The answer is the run as it is read afterwards, an
      ended run refused only if nothing was recorded. */
  method RequestCancel(track: InMemoryTrackStore, run: string, id: string, actor: string)
    returns (r: Result<Viewed, Problem>, ghost landed: seq<Row>)
    requires track.Valid() && id !in track.ids
    modifies track
    ensures track.Valid()
    ensures forall other :: old(track.Log(other)) <= track.Log(other)
    ensures old(track.Log(run)) <= landed <= track.Log(run)
    ensures if Wanted(EventsOf(old(track.Log(run))))
            then exists row: Row :: landed == old(track.Log(run)) + [row] && row.event == CancelRequested(actor)
            else landed == old(track.Log(run))
    ensures RetriedBetween(EventsOf(old(track.Log(run)))) ==> RetriedBetween(EventsOf(landed))
    ensures var view := ViewOf(EventsOf(track.Log(run)));
            r == match view
                 case NotSubmitted => Err(NoSuchRun)
                 case Unreadable => Err(CannotBeRead)
                 case Shows(v) =>
                   if landed == old(track.Log(run)) && v.state.Ended() then Err(RunEnded(v.state)) else Ok(view)
  {
    hide ViewOf, StillWanted, Wanted, RetriedBetween, InMemoryTrackStore.ValidLog;
    ghost var before := track.Log(run);
    WantedExactly(EventsOf(before));
    var recorded := track.AppendIf(TrackEvent(run, id, CancelRequested(actor), None), WhileWanted());
    landed := track.Log(run);
    var nothing := recorded == Ok(None);
    assert !nothing ==> |landed| == |before| + 1;
    if !nothing && RetriedBetween(EventsOf(before)) {
      WantedKeepsApart(EventsOf(before), actor);
      assert EventsOf(landed) == EventsOf(before) + [CancelRequested(actor)];
    }
    track.Others();
    var view := Describe(track, run);
    match view {
      case NotSubmitted => r := Err(NoSuchRun);
      case Unreadable => r := Err(CannotBeRead);
      case Shows(v) => r := if nothing && v.state.Ended() then Err(RunEnded(v.state)) else Ok(view);
    }
  }

  /** `request_turn`: asked of a run that is advancing as the turn lands, and of no other; a refused one leaves nothing on
      the Track, where `landed` is what it was as this call left it. `bytes` is the text's
      length in UTF-8. */
  method RequestTurn(track: InMemoryTrackStore, run: string, id: string, turn: string, text: string, bytes: nat)
    returns (r: Result<(), Problem>, ghost landed: seq<Row>)
    requires track.Valid() && id !in track.ids
    modifies track
    ensures track.Valid()
    ensures forall other :: old(track.Log(other)) <= track.Log(other)
    ensures old(track.Log(run)) <= landed <= track.Log(run)
    ensures r == Err(TextTooLong) <==> bytes > MAX_TURN_TEXT
    ensures bytes <= MAX_TURN_TEXT ==> (r.Ok? <==> TakesTurns(EventsOf(old(track.Log(run)))))
    ensures if r.Ok? then exists row: Row :: landed == old(track.Log(run)) + [row] && row.event == TurnRequested(turn, text)
            else landed == old(track.Log(run))
  {
    hide ViewOf, Advancing, TakesTurns, InMemoryTrackStore.ValidLog;
    landed := track.Log(run);
    TakesTurnsExactly(EventsOf(track.Log(run)));
    if bytes > MAX_TURN_TEXT {
      return Err(TextTooLong), landed;
    }
    var recorded := track.AppendIf(TrackEvent(run, id, TurnRequested(turn, text), None), WhileAdvancing());
    landed := track.Log(run);
    if recorded.Ok? && recorded.value.Some? {
      return Ok(()), landed;
    }
    track.Others();
    var view := Describe(track, run);
    match view {
      case NotSubmitted => r := Err(NoSuchRun);
      case Unreadable => r := Err(CannotBeRead);
      case Shows(v) => r := Err(RunEnded(v.state));
    }
  }
}
