/** Run views kept current by reading only what each run's Track gained (intents.py, `RunViews`), while other
    threads append to the Track, refresh the same runs, and forget them. */
module RunViews {
  import opened Wrappers
  import opened RunMachine
  import opened Ledger
  import opened TrackLaws
  import opened TrackStore
  import opened Views

  /** What is kept of a run. `events` is `None` once the run has ended: its view and turns are kept, its events
      let go. The source's initial `built_at` of -1 is `None`. */
  datatype Kept = Kept(events: Option<seq<Event>>, lastSequence: nat, builtAt: Option<nat>,
                       view: Option<View>, turns: Option<seq<TurnView>>, unreadable: bool)

  const NEVER_SUBMITTED := Kept(Some([]), 0, None, None, None, false)

  function EventsOf(rows: seq<Row>): (events: seq<Event>)
    ensures |events| == |rows| && forall i :: 0 <= i < |rows| ==> events[i] == rows[i].event
  {
    seq(|rows|, i requires 0 <= i < |rows| => rows[i].event)
  }

  predicate ShowsEnded(rows: seq<Row>) {
    var viewed := ViewOf(EventsOf(rows));
    viewed.Shows? && viewed.view.state.Ended()
  }

  /** What is kept was built from exactly these rows of the run. */
  ghost predicate BuiltFrom(k: Kept, rows: seq<Row>) {
    && rows != [] && k.lastSequence == rows[|rows| - 1].sequence && k.builtAt == Some(k.lastSequence)
    && (match ViewOf(EventsOf(rows))
        case NotSubmitted => k.view.None? && !k.unreadable
        case Unreadable => k.view.None? && k.unreadable
        case Shows(view) => k.view == Some(view) && !k.unreadable)
    && k.events == (if ShowsEnded(rows) then None else Some(EventsOf(rows)))
    && (k.events.None? ==> k.turns.Some?)
    && (k.turns.Some? ==> k.turns == TurnsOf(EventsOf(rows)))
  }

  method MaxSequence(rows: seq<Row>) returns (m: nat)
    requires rows != []
    ensures exists i :: 0 <= i < |rows| && rows[i].sequence == m
    ensures forall i :: 0 <= i < |rows| ==> rows[i].sequence <= m
  {
    m := rows[0].sequence;
    for i := 1 to |rows|
      invariant exists j :: 0 <= j < i && rows[j].sequence == m
      invariant forall j :: 0 <= j < i ==> rows[j].sequence <= m
    {
      if rows[i].sequence > m {
        m := rows[i].sequence;
      }
    }
  }

  lemma ShownCanBeReplayed(events: seq<Event>)
    requires ViewOf(events).Shows?
    ensures TurnsOf(events).Some?
  {
    hide ReplayOf, Asked, Draw;
  }

  /** Build the view anew when the run has new events; let an ended run's events go. */
  method Rebuild(before: Kept, ghost rows: seq<Row>) returns (k: Kept)
    requires rows != [] && before.lastSequence == rows[|rows| - 1].sequence
    requires before.builtAt == Some(before.lastSequence) ==> BuiltFrom(before, rows)
    requires before.builtAt != Some(before.lastSequence) ==> before.events == Some(EventsOf(rows))
    ensures BuiltFrom(k, rows)
  {
    hide ViewOf, TurnsOf;
    k := before;
    if k.builtAt != Some(k.lastSequence) {
      var events := k.events.value;
      var viewed := Build(events);
      k := k.(builtAt := Some(k.lastSequence), turns := None,
              view := if viewed.Shows? then Some(viewed.view) else None, unreadable := viewed.Unreadable?);
      if k.view.Some? && k.view.value.state.Ended() {
        ShownCanBeReplayed(events);
        var turns := Turns(events);
        k := k.(turns := turns, events := None);
      }
    }
  }

  lemma NoEvents()
    ensures EventsOf([]) == []
  {
  }

  lemma EventsConcat(had: seq<Row>, gained: seq<Row>)
    ensures EventsOf(had + gained) == EventsOf(had) + EventsOf(gained)
  {
  }

  lemma MaxIsLast(had: seq<Row>, gained: seq<Row>, m: nat)
    requires gained != [] && Increasing(had + gained)
    requires exists i :: 0 <= i < |gained| && gained[i].sequence == m
    requires forall i :: 0 <= i < |gained| ==> gained[i].sequence <= m
    ensures (had + gained)[|had + gained| - 1].sequence == m
  {
    var rows := had + gained;
    var i :| 0 <= i < |gained| && gained[i].sequence == m;
    assert rows[|had| + i] == gained[i] && rows[|rows| - 1] == gained[|gained| - 1];
  }

  lemma LastGrows(was: seq<Row>, now: seq<Row>)
    requires was != [] && was <= now && Increasing(now)
    ensures was[|was| - 1].sequence <= now[|now| - 1].sequence
    ensures was != now ==> was[|was| - 1].sequence < now[|now| - 1].sequence
  {
    assert was[|was| - 1] == now[|was| - 1];
  }

  /** What a refresh answers with: the entry kept of the run, or the one for a run with no events. */
  ghost predicate EntryIs(k: Kept, rows: seq<Row>) {
    if rows == [] then k == NEVER_SUBMITTED else BuiltFrom(k, rows)
  }

  lemma TurnsKept(k: Kept, rows: seq<Row>)
    requires EntryIs(k, rows)
    ensures k.turns.Some? ==> k.turns == TurnsOf(EventsOf(rows))
    ensures k.turns.None? ==> k.events == Some(EventsOf(rows))
    ensures BuiltFrom(k, rows) ==> BuiltFrom(k.(turns := TurnsOf(EventsOf(rows))), rows) || TurnsOf(EventsOf(rows)).None?
  {
    hide ViewOf, TurnsOf;
  }

  /** Take in what was read past the rows already taken in. */
  method Extend(before: Kept, ghost had: seq<Row>, gained: seq<Row>) returns (k: Kept)
    requires gained != [] && Increasing(had + gained) && before.events == Some(EventsOf(had))
    ensures k == before.(events := Some(EventsOf(had + gained)), lastSequence := (had + gained)[|had + gained| - 1].sequence)
  {
    hide EventsOf, Increasing;
    var m := MaxSequence(gained);
    MaxIsLast(had, gained, m);
    EventsConcat(had, gained);
    k := before.(events := Some(before.events.value + EventsOf(gained)), lastSequence := m);
  }

  lemma FilledOn(had: seq<Row>, gained: seq<Row>, n: nat)
    requires n <= |gained|
    ensures EventsOf((had + gained)[..|had| + n]) == EventsOf(had) + EventsOf(gained[..n])
  {
    EventsConcat(had, gained[..n]);
    assert (had + gained)[..|had| + n] == had + gained[..n];
  }

  // ---- Reading what is kept without the lock ----------------------------------------------------

  /** Whether the run machine can replay the run. */
  predicate Replays(rows: seq<Row>) {
    !ReplayOf(EventsOf(rows)).Refused?
  }

  lemma EmptyView()
    ensures ViewOf([]) == NotSubmitted
  {
  }

  lemma ReadsView(k: Kept, rows: seq<Row>)
    requires EntryIs(k, rows)
    ensures k.unreadable <==> ViewOf(EventsOf(rows)).Unreadable?
    ensures k.view == match ViewOf(EventsOf(rows)) case Shows(view) => Some(view) case _ => None
  {
    EmptyView();
    hide ViewOf;
    NoEvents();
  }

  lemma ReadsEvents(k: Kept, rows: seq<Row>)
    requires EntryIs(k, rows)
    ensures k.events == if ShowsEnded(rows) then None else Some(EventsOf(rows))
  {
    EmptyView();
    hide ViewOf;
    NoEvents();
  }

  /** What `view` answers: it raises for a run it reads as unreadable, and no view reads as never submitted. */
  function AnswerOf(unreadable: bool, view: Option<View>): Viewed {
    if unreadable then Unreadable
    else
      match view
      case Some(shown) => Shows(shown)
      case None => NotSubmitted
  }

  /** The two reads of `view`: whether the run was unreadable as it stood at the first, its view at the second. */
  function ViewRead(first: seq<Row>, second: seq<Row>): Viewed {
    if ViewOf(EventsOf(first)).Unreadable? then Unreadable
    else
      match ViewOf(EventsOf(second))
      case Shows(view) => Shows(view)
      case _ => NotSubmitted
  }

  /** One look at the list of an entry: the rows the entry was last built from, the run's rows at that moment, and
      how many of them a refresh that is under way has put in the list, if one is. */
  datatype Look = Look(entry: seq<Row>, track: seq<Row>, filled: Option<nat>)

  /** A refresh under way has found the run moved. It extends the list of a run that had not ended, and fills an
      emptied one for a run that had. */
  predicate CanSee(l: Look) {
    && l.entry <= l.track
    && (l.filled.Some? ==> l.entry != [] && l.entry != l.track && l.filled.value <= |l.track|
                           && (ShowsEnded(l.entry) || |l.entry| <= l.filled.value))
  }

  function Seen(l: Look): Option<seq<Event>>
    requires CanSee(l)
  {
    if l.filled.Some? then Some(EventsOf(l.track[..l.filled.value]))
    else if ShowsEnded(l.entry) then None
    else Some(EventsOf(l.entry))
  }

  /** A look and a later one: in the same refresh, which fills the list further, or after it has taken its rows in. */
  predicate InOrder(test: Look, copy: Look) {
    && test.track <= copy.track
    && (|| (test.filled.Some? && copy.filled.Some? && copy.entry == test.entry && copy.track == test.track
            && test.filled.value <= copy.filled.value)
        || (test.entry <= copy.entry && (test.filled.Some? ==> test.track <= copy.entry)))
  }

  lemma SeesWhole(k: Kept, at: seq<Row>, track: seq<Row>)
    requires EntryIs(k, at) && at <= track
    ensures CanSee(Look(at, track, None)) && Seen(Look(at, track, None)) == k.events
  {
    hide ShowsEnded, EventsOf, BuiltFrom;
    ReadsEvents(k, at);
  }

  lemma SeesRefilling(k: Kept, at: seq<Row>, gained: seq<Row>, n: nat)
    requires EntryIs(k, at) && k.events.None? && gained != [] && n <= |at + gained|
    ensures var look := Look(at, at + gained, Some(n));
            CanSee(look) && Seen(look) == Some(EventsOf((at + gained)[..n]))
  {
    hide ShowsEnded, EventsOf, BuiltFrom;
    ReadsEvents(k, at);
  }

  lemma SeesExtending(k: Kept, at: seq<Row>, gained: seq<Row>, n: nat)
    requires EntryIs(k, at) && k.events.Some? && at != [] && gained != [] && n <= |gained|
    ensures var look := Look(at, at + gained, Some(|at| + n));
            CanSee(look) && Seen(look) == Some(k.events.value + EventsOf(gained[..n]))
  {
    hide ShowsEnded, EventsOf, BuiltFrom;
    ReadsEvents(k, at);
    FilledOn(at, gained, n);
  }

  datatype Copied = Copy(events: seq<Event>) | Raises

  /** `events`: the list is tested, then copied; where it was let go at the test, the run is read again. */
  function CopyOf(test: Look, copy: Look): Copied
    requires CanSee(test) && CanSee(copy)
  {
    if Seen(test).None? then Copy(EventsOf(copy.track))
    else if Seen(copy).None? then Raises
    else Copy(Seen(copy).value)
  }

  lemma {:induction false} NeverSubmittedIsFacts(beforePickups: bool, events: seq<Event>)
    ensures Scan(beforePickups, events).NeverSubmitted? <==> forall k :: 0 <= k < |events| ==> IsFact(events[k])
  {
    if events != [] {
      NeverSubmittedIsFacts(beforePickups, events[..|events| - 1]);
    }
  }

  /** Where a strict replay has the run not yet picked up, reading it as a Track from before pickups were recorded
      refuses nothing of it. */
  lemma {:induction false} NotPickedUpYet(events: seq<Event>)
    requires var strict := Scan(false, events); strict.NeverSubmitted? || (strict.At? && strict.run.state.Submitted?)
    ensures if Scan(false, events).At? then Scan(true, events).At? else Scan(true, events).NeverSubmitted?
  {
    if events != [] {
      NotPickedUpYet(events[..|events| - 1]);
    }
  }

  /** A Track that replays replayed at each earlier moment: once unreadable, a run stays so. */
  lemma {:induction false} ReplayedBefore(events: seq<Event>, n: nat)
    requires n <= |events| && !ReplayOf(events).Refused?
    ensures !ReplayOf(events[..n]).Refused?
    decreases |events|
  {
    hide Apply;
    if n == |events| {
      assert events[..n] == events;
    } else {
      var front, last := events[..|events| - 1], events[|events| - 1];
      assert front[..n] == events[..n];
      PickupBefore(events);
      if HasPickup(events) && !HasPickup(front) {
        PicksUpSubmitted(Scan(false, front));
        NotPickedUpYet(front);
      }
      ReplayedBefore(front, n);
    }
  }

  lemma PickupBefore(events: seq<Event>)
    requires events != []
    ensures HasPickup(events) <==> HasPickup(events[..|events| - 1]) || events[|events| - 1].RunPickedUp?
  {
    var front := events[..|events| - 1];
    if HasPickup(front) {
      var k :| 0 <= k < |front| && front[k].RunPickedUp?;
      assert events[k].RunPickedUp?;
    }
    if HasPickup(events) && !events[|events| - 1].RunPickedUp? {
      var k :| 0 <= k < |events| && events[k].RunPickedUp?;
      assert front[k].RunPickedUp?;
    }
  }

  lemma PicksUpSubmitted(r: Replayed)
    requires !ReplayOne(false, r, RunPickedUp).Refused?
    ensures r.At? && r.run.state.Submitted?
  {
  }

  lemma RowsReplayedBefore(was: seq<Row>, now: seq<Row>)
    requires was <= now && Replays(now)
    ensures Replays(was)
  {
    hide ReplayOf;
    ReplayedBefore(EventsOf(now), |was|);
    assert EventsOf(now)[..|was|] == EventsOf(was);
  }

  lemma ReadableViews(rows: seq<Row>)
    ensures ViewOf(EventsOf(rows)).Unreadable? ==> !Replays(rows)
  {
    hide Scan, Draw, EventsOf;
    AtHasOp(!HasPickup(EventsOf(rows)), EventsOf(rows));
  }

  lemma {:induction false} AtHasOp(beforePickups: bool, events: seq<Event>)
    ensures Scan(beforePickups, events).At? ==> Fold(events).op.Some?
  {
    hide Post, Apply;
    if events != [] {
      AtHasOp(beforePickups, events[..|events| - 1]);
      PostOp(Fold(events[..|events| - 1]), events[|events| - 1]);
    }
  }

  /** The view kept is older than the rows gained, and is to be built anew. */
  predicate BuiltBefore(k: Kept, gained: seq<Row>)
    requires gained != []
  {
    k.builtAt.Some? ==> k.builtAt.value < gained[|gained| - 1].sequence
  }

  lemma NeverBuilt(k: Kept, gained: seq<Row>)
    requires k.builtAt.None?
    ensures gained != [] ==> BuiltBefore(k, gained)
  {
  }

  lemma StillBuiltBefore(k: Kept, gained: seq<Row>, rows: seq<Row>)
    requires gained != [] && rows != [] && BuiltBefore(k, gained)
    requires gained[|gained| - 1].sequence <= rows[|rows| - 1].sequence
    ensures BuiltBefore(k.(events := Some([])), rows)
  {
  }

  class RunViews {
    const track: InMemoryTrackStore
    var kept: map<string, Kept>
    ghost var read: map<string, seq<Row>>

    constructor (track: InMemoryTrackStore)
      requires track.Valid()
      ensures Valid() && this.track == track && kept == map[]
    {
      this.track, kept, read := track, map[], map[];
    }

    ghost predicate Valid()
      reads this, track
    {
      && track.Valid() && kept.Keys == read.Keys
      && forall run :: run in kept ==> BuiltFrom(kept[run], read[run]) && read[run] <= track.Log(run)
    }

    lemma KeptReads(run: string)
      requires Valid() && run in kept
      ensures BuiltFrom(kept[run], read[run])
      ensures After(track.Log(run), kept[run].lastSequence) == track.Log(run)[|read[run]|..]
      ensures kept[run].builtAt == Some(kept[run].lastSequence)
      ensures read[run] != [] && kept[run].lastSequence == read[run][|read[run]| - 1].sequence
      ensures kept[run].events.Some? ==> kept[run].events.value == EventsOf(read[run])
    {
      hide After;
      track.WholeLog(run);
      track.LogIncreases(run);
      track.LogPositive(run);
      AfterGained(read[run], track.Log(run), kept[run].lastSequence);
    }

    /** An ended run that moved again is read whole once more, from where others have brought it by then. */
    method ReadWhole(run: string) returns (rows: seq<Row>)
      requires Valid() && track.Log(run) != []
      modifies track
      ensures Valid()
      ensures forall r :: old(track.Log(r)) <= track.Log(r)
      ensures rows == track.Log(run) && rows != []
      ensures old(track.Log(run)[|track.Log(run)| - 1]).sequence <= rows[|rows| - 1].sequence
    {
      hide BuiltFrom, Increasing, After, InMemoryTrackStore.Valid, InMemoryTrackStore.ValidLog;
      ghost var was := track.Log(run);
      track.Others();
      track.WholeLog(run);
      track.LogIncreases(run);
      rows := track.Replay(run, 0);
      LastGrows(was, rows);
    }

    /** What a run that is kept gained since it was last read. */
    method Gain(run: string) returns (gained: seq<Row>)
      requires Valid() && run in kept
      ensures BuiltFrom(kept[run], read[run]) && read[run] != [] && read[run] + gained == track.Log(run)
      ensures kept[run].builtAt.Some? && (kept[run].events.Some? ==> kept[run].events.value == EventsOf(read[run]))
      ensures gained != [] ==> BuiltBefore(kept[run], gained)
      ensures track.Log(run) != [] && (gained != [] ==> track.Log(run)[|track.Log(run)| - 1] == gained[|gained| - 1])
    {
      hide BuiltFrom, Increasing, EventsOf, After, InMemoryTrackStore.Valid, InMemoryTrackStore.ValidLog;
      KeptReads(run);
      gained := track.Replay(run, kept[run].lastSequence);
      track.LogIncreases(run);
      LastGrows(read[run], track.Log(run));
    }

    /** The reading half of `_refresh`: what the run gained since it was last read, or all of it, for an ended run
        that moved again. `had` is what `k` holds the events of. */
    method ReadOn(run: string) returns (k: Kept, gained: seq<Row>, ghost had: seq<Row>)
      requires Valid()
      modifies track
      ensures Valid()
      ensures forall r :: old(track.Log(r)) <= track.Log(r)
      ensures had + gained == track.Log(run)
      ensures gained != [] ==> k.events == Some(EventsOf(had))
      ensures gained != [] ==> BuiltBefore(k, gained)
      ensures run !in kept || kept[run].events.Some? ==> track.Log(run) == old(track.Log(run)) && track.ids == old(track.ids)
      ensures gained == [] && had == [] ==> run !in kept
      ensures gained == [] && had != [] ==> run in kept && k == kept[run] && had == read[run]
    {
      hide BuiltFrom, BuiltBefore, Increasing, EventsOf, After, InMemoryTrackStore.Valid, InMemoryTrackStore.ValidLog;
      NoEvents();
      had := [];
      if run !in kept {
        track.WholeLog(run);
        gained := track.Replay(run, 0);
        k := Kept(Some([]), 0, None, None, None, false);
        NeverBuilt(k, gained);
      } else {
        k, had := kept[run], read[run];
        gained := Gain(run);
        if gained != [] && k.events.None? {
          ghost var before := gained;
          gained := ReadWhole(run);
          StillBuiltBefore(k, before, gained);
          k, had := k.(events := Some([])), [];
        }
      }
    }

    method Keep(run: string, k: Kept, ghost at: seq<Row>)
      requires Valid() && BuiltFrom(k, at) && at <= track.Log(run)
      modifies this
      ensures Valid() && kept == old(kept)[run := k] && read == old(read)[run := at]
    {
      hide BuiltFrom, InMemoryTrackStore.Valid;
      kept, read := kept[run := k], read[run := at];
    }

    /** `_refresh`: what is kept is built from the run's events as they were at one moment of the call. */
    method Refresh(run: string) returns (k: Kept, ghost at: seq<Row>)
      requires Valid()
      modifies this, track
      ensures Valid()
      ensures forall r :: old(track.Log(r)) <= track.Log(r)
      ensures old(track.Log(run)) <= at <= track.Log(run)
      ensures if at == [] then k == NEVER_SUBMITTED && run !in kept else BuiltFrom(k, at) && run in kept && kept[run] == k && read[run] == at
      ensures run !in old(kept) || old(kept)[run].events.Some? ==> at == old(track.Log(run)) == track.Log(run) && track.ids == old(track.ids)
      ensures forall r :: r != run ==> (r in kept <==> r in old(kept)) && (r in kept ==> kept[r] == old(kept)[r] && read[r] == old(read)[r])
    {
      hide BuiltFrom, Increasing, EventsOf, InMemoryTrackStore.Valid, InMemoryTrackStore.ValidLog;
      var gained: seq<Row>;
      ghost var had: seq<Row>;
      k, gained, had := ReadOn(run);
      at := track.Log(run);
      if run !in kept && gained == [] {
        return NEVER_SUBMITTED, [];
      }
      if gained != [] {
        track.LogIncreases(run);
        k := Extend(k, had, gained);
      } else {
        assert had + gained == had;
        KeptReads(run);
      }
      k := Rebuild(k, at);
      Keep(run, k, at);
    }

    method Forget(run: string)
      requires Valid()
      modifies this
      ensures Valid() && kept == old(kept) - {run} && read == old(read) - {run}
    {
      kept, read := kept - {run}, read - {run};
    }

    /** One thing another thread does. */
    method Meantime(run: string, before: Kept, ghost from: seq<Row>, wasKept: bool)
      returns (k: Kept, ghost at: seq<Row>, isKept: bool)
      requires Valid() && EntryIs(before, from) && from <= track.Log(run)
      requires wasKept ==> run in kept && kept[run] == before && read[run] == from
      modifies this, track
      ensures Valid()
      ensures forall r :: old(track.Log(r)) <= track.Log(r)
      ensures EntryIs(k, at) && from <= at <= track.Log(run)
      ensures isKept ==> run in kept && kept[run] == k && read[run] == at
    {
      hide BuiltFrom, InMemoryTrackStore.Valid, InMemoryTrackStore.ValidLog;
      k, at, isKept := before, from, wasKept;
      if isKept {
        KeptReads(run);
      }
      var other: string := *;
      if {
        case true => track.Others();
        case true =>
          Forget(other);
          isKept := isKept && other != run;
        case other != run => var _, _ := Refresh(other);
        case true =>
          var refreshed;
          ghost var rows;
          refreshed, rows := Refresh(run);
          if isKept {
            k, at := refreshed, rows;
          }
      }
    }

    /** What other threads do while this one does not hold the lock: append, refresh any run, forget any run. The entry
        this one was given is the one they refresh, until the run is forgotten; then nobody else has it. */
    method Meanwhile(run: string, before: Kept, ghost from: seq<Row>, wasKept: bool)
      returns (k: Kept, ghost at: seq<Row>, isKept: bool)
      requires Valid() && EntryIs(before, from) && from <= track.Log(run)
      requires wasKept ==> run in kept && kept[run] == before && read[run] == from
      modifies this, track
      ensures Valid()
      ensures forall r :: old(track.Log(r)) <= track.Log(r)
      ensures EntryIs(k, at) && from <= at <= track.Log(run)
      ensures isKept ==> run in kept && kept[run] == k && read[run] == at
    {
      hide BuiltFrom, InMemoryTrackStore.Valid, InMemoryTrackStore.ValidLog;
      k, at, isKept := before, from, wasKept;
      var n: nat :| true;
      for i := 0 to n
        invariant Valid()
        invariant forall r :: old(track.Log(r)) <= track.Log(r)
        invariant EntryIs(k, at) && from <= at <= track.Log(run)
        invariant isKept ==> run in kept && kept[run] == k && read[run] == at
      {
        k, at, isKept := Meantime(run, k, at, isKept);
      }
    }

    /** `view`: what is kept is read after the lock is let go, whether it is unreadable first and its view after. */
    method View(run: string) returns (r: Viewed, ghost first: seq<Row>, ghost second: seq<Row>)
      requires Valid()
      modifies this, track
      ensures Valid()
      ensures old(track.Log(run)) <= first <= second <= track.Log(run)
      ensures r == ViewRead(first, second)
      ensures Replays(track.Log(run)) ==> r == ViewOf(EventsOf(second))
    {
      hide ViewOf, InMemoryTrackStore.Valid, InMemoryTrackStore.ValidLog;
      var k;
      k, first := Refresh(run);
      var isKept := run in kept;
      k, first, isKept := Meanwhile(run, k, first, isKept);
      var unreadable := k.unreadable;
      ReadsView(k, first);
      k, second, isKept := Meanwhile(run, k, first, isKept);
      ReadsView(k, second);
      if Replays(track.Log(run)) {
        RowsReplayedBefore(first, track.Log(run));
        RowsReplayedBefore(second, track.Log(run));
        ReadableViews(first);
        ReadableViews(second);
      }
      r := AnswerOf(unreadable, k.view);
    }

    /** `turns`: the lock is let go between the refresh and the reading, and what is kept may move meanwhile. */
    method TurnsAsked(run: string) returns (r: Option<seq<TurnView>>, ghost at: seq<Row>)
      requires Valid()
      modifies this, track
      ensures Valid()
      ensures old(track.Log(run)) <= at <= track.Log(run)
      ensures r == TurnsOf(EventsOf(at))
    {
      hide BuiltFrom, TurnsOf, InMemoryTrackStore.Valid, InMemoryTrackStore.ValidLog;
      var k;
      k, at := Refresh(run);
      var isKept := run in kept;
      k, at, isKept := Meanwhile(run, k, at, isKept);
      TurnsKept(k, at);
      if k.turns.None? {
        var turns := Turns(k.events.GetOr([]));
        if turns.Some? && isKept {
          KeptReads(run);
          Keep(run, k.(turns := turns), at);
        }
        return turns, at;
      }
      r := k.turns;
    }

    /** The events of the entry as a thread without the lock sees them: a refresh by another thread that has found the
        run moved may be part way, the list emptied for an ended run, and filled one event at a time. */
    method Glance(run: string, k: Kept, ghost at: seq<Row>, isKept: bool)
      returns (seen: Option<seq<Event>>, underWay: bool, ghost look: Look)
      requires Valid() && EntryIs(k, at) && at <= track.Log(run)
      requires isKept ==> run in kept && kept[run] == k && read[run] == at
      ensures look.entry == at && look.track == track.Log(run) && CanSee(look) && seen == Seen(look)
      ensures (underWay <==> look.filled.Some?) && (underWay ==> isKept)
    {
      hide ViewOf, EventsOf, ShowsEnded, CanSee, Seen, EntryIs, Increasing, After, InMemoryTrackStore.Valid,
           InMemoryTrackStore.ValidLog;
      seen, look := k.events, Look(at, track.Log(run), None);
      SeesWhole(k, at, track.Log(run));
      underWay := *;
      underWay := underWay && isKept;
      if underWay {
        var gained := Gain(run);
        underWay := gained != [];
        if underWay {
          var filled: seq<Event>;
          filled, look := Filling(run, k, at, gained);
          seen := Some(filled);
        }
      }
    }

    /** How far the refresh has filled the list: the rows gained extend it, or all rows fill it again. */
    method Filling(run: string, k: Kept, ghost at: seq<Row>, gained: seq<Row>) returns (filled: seq<Event>, ghost look: Look)
      requires Valid() && EntryIs(k, at) && at != [] && gained != [] && track.Log(run) == at + gained
      ensures look.entry == at && look.track == track.Log(run) && look.filled.Some? && CanSee(look) && Some(filled) == Seen(look)
    {
      hide ViewOf, EventsOf, ShowsEnded, CanSee, Seen, EntryIs, After, InMemoryTrackStore.Valid, InMemoryTrackStore.ValidLog;
      if k.events.None? {
        track.WholeLog(run);
        var rows := track.Replay(run, 0);
        var n: nat :| n <= |rows|;
        SeesRefilling(k, at, gained, n);
        filled, look := EventsOf(rows[..n]), Look(at, at + gained, Some(n));
      } else {
        var n: nat :| n <= |gained|;
        SeesExtending(k, at, gained, n);
        filled, look := k.events.value + EventsOf(gained[..n]), Look(at, at + gained, Some(|at| + n));
      }
    }

    /** A refresh under way goes on filling the list, and has it further filled. */
    method FillsOn(run: string, seen: seq<Event>, ghost look: Look) returns (more: seq<Event>, ghost after: Look)
      requires Valid() && CanSee(look) && look.filled.Some? && Some(seen) == Seen(look) && look.track == track.Log(run)
      ensures CanSee(after) && InOrder(look, after) && after.track == look.track && after.filled.Some? && Some(more) == Seen(after)
    {
      hide ShowsEnded, InMemoryTrackStore.Valid, InMemoryTrackStore.ValidLog;
      track.WholeLog(run);
      var rows := track.Replay(run, 0);
      var n: nat :| |seen| <= n <= |rows|;
      more, after := EventsOf(rows[..n]), look.(filled := Some(n));
    }

    /** `events`: the list is tested and copied after the lock is let go; an ended run's is read again in full. The
        copy raises if the list was let go in between. It is the run's events at one moment of the call when nothing
        is appended meanwhile, and when the run has ended at no moment of the call. */
    method Events(run: string) returns (r: Copied, ghost test: Look, ghost copy: Look)
      requires Valid()
      modifies this, track
      ensures Valid()
      ensures old(track.Log(run)) <= test.entry && copy.track <= track.Log(run)
      ensures CanSee(test) && CanSee(copy) && InOrder(test, copy) && r == CopyOf(test, copy)
      ensures track.Log(run) == old(track.Log(run)) ==> r == Copy(EventsOf(track.Log(run)))
      ensures NeverEnded(old(track.Log(run)), track.Log(run)) ==> r.Copy? && OfAMoment(r.events, old(track.Log(run)), track.Log(run))
    {
      hide BuiltFrom, ShowsEnded, InMemoryTrackStore.Valid, InMemoryTrackStore.ValidLog, Seen, CanSee, InOrder, OfAMoment,
           NeverEnded;
      r, test, copy := TestAndCopy(run);
      if track.Log(run) == old(track.Log(run)) {
        UnmovedCopy(test, copy, track.Log(run));
      }
      if NeverEnded(old(track.Log(run)), track.Log(run)) {
        NeverEndedCopy(test, copy, old(track.Log(run)), track.Log(run));
      }
    }

    /** A refresh that is under way takes in what it read; then others go on. */
    method Later(run: string, before: Kept, ghost from: seq<Row>, wasKept: bool, underWay: bool)
      returns (k: Kept, ghost at: seq<Row>, isKept: bool)
      requires Valid() && EntryIs(before, from) && from <= track.Log(run) && (underWay ==> wasKept)
      requires wasKept ==> run in kept && kept[run] == before && read[run] == from
      modifies this, track
      ensures Valid()
      ensures forall r :: old(track.Log(r)) <= track.Log(r)
      ensures EntryIs(k, at) && from <= at <= track.Log(run) && (underWay ==> old(track.Log(run)) <= at)
      ensures isKept ==> run in kept && kept[run] == k && read[run] == at
    {
      hide BuiltFrom, InMemoryTrackStore.Valid, InMemoryTrackStore.ValidLog;
      k, at, isKept := before, from, wasKept;
      if underWay {
        KeptReads(run);
        k, at := Refresh(run);
      }
      k, at, isKept := Meanwhile(run, k, at, isKept);
    }

    /** The list was there at the test. */
    method CopyAfter(run: string, k: Kept, ghost at: seq<Row>, isKept: bool, seen: seq<Event>, underWay: bool, ghost test: Look)
      returns (r: Copied, ghost copy: Look)
      requires Valid() && EntryIs(k, at) && CanSee(test) && Seen(test) == Some(seen) && test.entry == at && test.track == track.Log(run)
      requires isKept ==> run in kept && kept[run] == k && read[run] == at
      requires (underWay <==> test.filled.Some?) && (underWay ==> isKept)
      modifies this, track
      ensures Valid()
      ensures forall other :: old(track.Log(other)) <= track.Log(other)
      ensures CanSee(copy) && InOrder(test, copy) && copy.track <= track.Log(run) && r == CopyOf(test, copy)
    {
      hide BuiltFrom, ShowsEnded, InMemoryTrackStore.Valid, InMemoryTrackStore.ValidLog;
      var still: bool := *;
      if underWay && still {
        var more;
        more, copy := FillsOn(run, seen, test);
        return Copy(more), copy;
      }
      var entry, isStillKept, sees;
      ghost var rows;
      entry, rows, isStillKept := Later(run, k, at, isKept, underWay);
      sees, isStillKept, copy := Glance(run, entry, rows, isStillKept);
      r := if sees.Some? then Copy(sees.value) else Raises;
    }

    method TestAndCopy(run: string) returns (r: Copied, ghost test: Look, ghost copy: Look)
      requires Valid()
      modifies this, track
      ensures Valid()
      ensures forall other :: old(track.Log(other)) <= track.Log(other)
      ensures old(track.Log(run)) <= test.entry && copy.track <= track.Log(run)
      ensures CanSee(test) && CanSee(copy) && InOrder(test, copy) && r == CopyOf(test, copy)
    {
      hide BuiltFrom, ShowsEnded, InMemoryTrackStore.Valid, InMemoryTrackStore.ValidLog;
      var k, seen, underWay;
      ghost var at;
      k, at := Refresh(run);
      var isKept := run in kept;
      k, at, isKept := Meanwhile(run, k, at, isKept);
      seen, underWay, test := Glance(run, k, at, isKept);
      if seen.None? {
        k, at, isKept := Meanwhile(run, k, at, isKept);
        track.WholeLog(run);
        var rows := track.Replay(run, 0);
        copy := Look(at, rows, None);
        return Copy(EventsOf(rows)), test, copy;
      }
      r, copy := CopyAfter(run, k, at, isKept, seen.value, underWay, test);
    }
  }

  // ---- When the answers are right ---------------------------------------------------------------

  /** The answer of `view` is what the run's Track said at one moment of the call, unless the run was submitted when
      asked of, and became unreadable between the two reads: then it reads as never submitted, which it was at none. */
  lemma ViewIsOfAMoment(was: seq<Row>, first: seq<Row>, second: seq<Row>, now: seq<Row>)
    requires was <= first <= second <= now
    ensures (exists at :: was <= at <= now && ViewRead(first, second) == ViewOf(EventsOf(at)))
       <==> !(ViewOf(EventsOf(was)).Shows? && ViewOf(EventsOf(first)).Shows? && ViewOf(EventsOf(second)).Unreadable?)
  {
    hide ViewOf;
    if ViewOf(EventsOf(first)).Unreadable? {
      assert was <= first <= now;
    } else if !ViewOf(EventsOf(second)).Unreadable? {
      assert was <= second <= now;
    } else if ViewOf(EventsOf(first)).NotSubmitted? {
      assert was <= first <= now;
    } else if ViewOf(EventsOf(was)).Shows? {
      forall at | was <= at <= now ensures !ViewOf(EventsOf(at)).NotSubmitted? {
        SubmittedStays(was, at);
      }
    } else if ViewOf(EventsOf(was)).Unreadable? {
      UnreadableStays(was, first);
    } else {
      assert was <= was <= now;
    }
  }

  lemma SubmittedStays(was: seq<Row>, now: seq<Row>)
    requires was <= now && !ViewOf(EventsOf(was)).NotSubmitted?
    ensures !ViewOf(EventsOf(now)).NotSubmitted?
  {
    hide Scan, Draw;
    var before, after := EventsOf(was), EventsOf(now);
    NeverSubmittedIsFacts(!HasPickup(before), before);
    NeverSubmittedIsFacts(!HasPickup(after), after);
    assert forall k :: 0 <= k < |before| ==> before[k] == after[k];
  }

  lemma UnreadableStays(was: seq<Row>, now: seq<Row>)
    requires was <= now && ViewOf(EventsOf(was)).Unreadable?
    ensures ViewOf(EventsOf(now)).Unreadable?
  {
    hide Scan, Draw, EventsOf;
    ReadableViews(was);
    if Replays(now) {
      RowsReplayedBefore(was, now);
    }
  }

  predicate NeverEnded(was: seq<Row>, now: seq<Row>) {
    forall n :: |was| <= n <= |now| ==> !ShowsEnded(now[..n])
  }

  ghost predicate OfAMoment(events: seq<Event>, was: seq<Row>, now: seq<Row>) {
    exists at :: was <= at <= now && events == EventsOf(at)
  }

  /** The copy raises exactly when the list was there at the test, and other threads' refreshes, taking in more of the
      run's events, left the run ended and the list let go at the copy. */
  lemma CopyRaisesExactly(test: Look, copy: Look)
    requires CanSee(test) && CanSee(copy) && InOrder(test, copy)
    ensures CopyOf(test, copy).Raises? <==> Seen(test).Some? && copy.filled.None? && ShowsEnded(copy.entry)
    ensures CopyOf(test, copy).Raises? ==> test.entry < copy.entry
  {
    hide ShowsEnded;
    if test.filled.Some? && copy.filled.None? {
      assert test.track[..|test.entry|] == test.entry;
      assert |test.entry| < |test.track| <= |copy.entry|;
    }
    assert test.entry <= copy.entry && |test.entry| == |copy.entry| ==> test.entry == copy.entry;
  }

  /** What is copied is the run's events at one moment of the call, unless a refresh that reads an ended run again is
      seen at the copy before it has filled the list as far as the run had come when asked of. */
  lemma CopyIsOfAMoment(test: Look, copy: Look, was: seq<Row>, now: seq<Row>)
    requires CanSee(test) && CanSee(copy) && InOrder(test, copy) && was <= test.entry && copy.track <= now
    requires CopyOf(test, copy).Copy?
    ensures OfAMoment(CopyOf(test, copy).events, was, now)
       <==> !(Seen(test).Some? && copy.filled.Some? && copy.filled.value < |was|)
    ensures copy.filled.Some? && copy.filled.value < |was| ==> ShowsEnded(copy.entry)
  {
    hide ShowsEnded;
    var events := CopyOf(test, copy).events;
    if Seen(test).None? {
      assert was <= copy.track <= now;
    } else if copy.filled.None? {
      assert was <= copy.entry <= now;
    } else if copy.filled.value >= |was| {
      var at := copy.track[..copy.filled.value];
      assert was <= at <= now && events == EventsOf(at);
    }
  }

  lemma UnmovedCopy(test: Look, copy: Look, now: seq<Row>)
    requires CanSee(test) && CanSee(copy) && InOrder(test, copy) && now <= test.entry && copy.track <= now
    ensures CopyOf(test, copy) == Copy(EventsOf(now))
  {
    hide ShowsEnded;
    assert test.entry == now && test.track == now && copy.entry == now && copy.track == now;
  }

  lemma NeverEndedCopy(test: Look, copy: Look, was: seq<Row>, now: seq<Row>)
    requires CanSee(test) && CanSee(copy) && InOrder(test, copy) && was <= test.entry && copy.track <= now
    requires NeverEnded(was, now)
    ensures CopyOf(test, copy).Copy? && OfAMoment(CopyOf(test, copy).events, was, now)
  {
    hide ShowsEnded, OfAMoment;
    assert !ShowsEnded(copy.entry) by { assert now[..|copy.entry|] == copy.entry; }
    CopyRaisesExactly(test, copy);
    CopyIsOfAMoment(test, copy, was, now);
  }

  // ---- Answers that are wrong -------------------------------------------------------------------

  const SUBMITTED := OpSubmitted(Op([]), 0)

  function Numbered(events: seq<Event>): (rows: seq<Row>)
    ensures EventsOf(rows) == events
  {
    seq(|events|, i requires 0 <= i < |events| => Row("run", "", events[i], i + 1))
  }

  lemma FirstReplays()
    ensures Scan(false, [SUBMITTED]) == At(NEW_RUN) && Scan(true, [SUBMITTED]) == At(NEW_RUN)
    ensures Scan(false, [SUBMITTED, RunPickedUp]) == At(NEW_RUN.(state := Running))
  {
    assert [SUBMITTED][..0] == [] && [SUBMITTED, RunPickedUp][..1] == [SUBMITTED];
  }

  lemma SubmittedFold(rest: seq<Event>)
    ensures Fold([SUBMITTED] + rest).op.Some?
    decreases |rest|
  {
    hide Post;
    var events := [SUBMITTED] + rest;
    if rest != [] {
      SubmittedFold(rest[..|rest| - 1]);
      assert events[..|events| - 1] == [SUBMITTED] + rest[..|rest| - 1];
      PostOp(Fold(events[..|events| - 1]), events[|events| - 1]);
    } else {
      assert events == [SUBMITTED] && events[..0] == [];
      PostOp(BLANK, SUBMITTED);
    }
  }

  const ADVANCING := [SUBMITTED, RunPickedUp]
  const FINISHED := [SUBMITTED, RunPickedUp, RunCompleted]

  lemma Ends()
    ensures ViewOf(ADVANCING).Shows? && !ViewOf(ADVANCING).view.state.Ended()
    ensures ViewOf(FINISHED).Shows? && ViewOf(FINISHED).view.state.Ended()
  {
    hide Fold, Draw, CancelRequestOf;
    FirstReplays();
    SubmittedFold([RunPickedUp]);
    SubmittedFold([RunPickedUp, RunCompleted]);
    assert ADVANCING == [SUBMITTED] + [RunPickedUp] && FINISHED == [SUBMITTED] + [RunPickedUp, RunCompleted];
    assert ADVANCING[1].RunPickedUp? && FINISHED[1].RunPickedUp? && FINISHED[..2] == ADVANCING;
  }

  method Advanced(run: string) returns (track: InMemoryTrackStore)
    ensures fresh(track) && track.Valid() && track.ids == {"a", "b"} && EventsOf(track.Log(run)) == ADVANCING
  {
    hide InMemoryTrackStore.ValidLog, InMemoryTrackStore.Valid;
    track := new InMemoryTrackStore();
    var a := track.Append(TrackEvent(run, "a", SUBMITTED, None));
    var b := track.Append(TrackEvent(run, "b", RunPickedUp, None));
    assert track.Log(run) == [a.value, b.value];
  }

  /** A run's entry as its own refresh leaves it, and as another thread's refresh leaves the same entry once the run has
      gained an event. */
  method RefreshedBetween(run: string, e: Event) returns (mine: Kept, theirs: Kept, ghost was: seq<Row>, ghost now: seq<Row>)
    requires !e.OpSubmitted?
    ensures EntryIs(mine, was) && EventsOf(was) == ADVANCING
    ensures EntryIs(theirs, now) && EventsOf(now) == ADVANCING + [e] && was <= now
  {
    hide ViewOf, BuiltFrom, EventsOf, InMemoryTrackStore.ValidLog, InMemoryTrackStore.Valid;
    Ends();
    var track := Advanced(run);
    var views := new RunViews(track);
    mine, was := views.Refresh(run);
    ReadsEvents(mine, was);
    var row := track.Append(TrackEvent(run, "c", e, None));
    assert row.Ok?;
    EventsConcat(was, [row.value]);
    LastEvent(row.value);
    assert views.kept[run].events.Some?;
    theirs, now := views.Refresh(run);
  }

  /** The interleaving in which the copy of `events` raises: its test finds the list of an advancing run; the run ends,
      and another thread's refresh lets the list go. */
  method LetGoBetween(run: string) returns (tested: Option<seq<Event>>, copied: Option<seq<Event>>)
    ensures tested == Some(ADVANCING) && copied.None?
  {
    hide ViewOf, BuiltFrom, EventsOf;
    var mine, theirs;
    ghost var was, now;
    mine, theirs, was, now := RefreshedBetween(run, RunCompleted);
    Ends();
    assert FINISHED == ADVANCING + [RunCompleted];
    ReadsEvents(mine, was);
    ReadsEvents(theirs, now);
    tested, copied := mine.events, theirs.events;
  }

  lemma SecondPickupUnreadable()
    ensures ViewOf(ADVANCING + [RunPickedUp]).Unreadable?
  {
    hide Fold, Draw, CancelRequestOf;
    FirstReplays();
    ScanSnoc(false, ADVANCING, RunPickedUp);
    assert (ADVANCING + [RunPickedUp])[1].RunPickedUp?;
  }

  /** The interleaving in which `view` answers that a submitted run never was: it is readable at the first read, and
      another thread's refresh finds it unreadable before the second. */
  method UnreadableBetween(run: string) returns (answer: Viewed)
    ensures answer == NotSubmitted && ViewOf(ADVANCING).Shows?
  {
    hide ViewOf, BuiltFrom, EventsOf;
    var mine, theirs;
    ghost var was, now;
    mine, theirs, was, now := RefreshedBetween(run, RunPickedUp);
    Ends();
    SecondPickupUnreadable();
    ReadsView(mine, was);
    ReadsView(theirs, now);
    answer := AnswerOf(mine.unreadable, theirs.view);
  }

  /** An ended run gains an answer to a turn; a refresh reading it again has emptied its list when `events` tests and
      copies it: a run with events reads as having none. */
  lemma SeenEmptied() returns (was: seq<Row>, test: Look, copy: Look)
    ensures CanSee(test) && CanSee(copy) && InOrder(test, copy) && was <= test.entry && was != []
    ensures CopyOf(test, copy) == Copy([]) && !OfAMoment([], was, copy.track)
  {
    hide ViewOf;
    Ends();
    was := Numbered(FINISHED);
    var gained := Numbered(FINISHED + [TurnFailed("turn", "late")]);
    assert forall i :: 0 <= i < |was| ==> was[i] == gained[i];
    test := Look(was, gained, Some(0));
    copy := test;
    NoEvents();
    assert gained[..0] == [];
  }

  lemma LastEvent(row: Row)
    ensures EventsOf([row]) == [row.event]
  {
  }
}
