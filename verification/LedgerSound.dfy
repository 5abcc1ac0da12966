/** What the ledger of every legal Track keeps: the invariant the Track laws are drawn from. */
module LedgerSound {
  import opened Wrappers
  import opened Budget
  import opened RunMachine
  import opened Ledger
  import Keys

  // ---- What every legal Track's ledger keeps ----------------------------------------------------

  /** A run nothing has picked up. */
  predicate Untouched(b: Book) {
    && (InState(b, Submitted) || InState(b, Cancelled))
    && b.completed == [] && b.flight.None? && b.approved == map[] && b.escalated == map[] && b.retries == 0
  }

  ghost predicate SoundFlight(c: Config, b: Book) {
    b.flight.Some? ==>
      var f := b.flight.value;
      && InState(b, Running) && IsNext(b, f.step) && f.number == Number(b, f.step) && b.approved == map[]
      && (f.usage.None? ==> Affordable(c, b.reports))
      && (f.usage.Some? ==> f.step in b.accounted)
  }

  ghost predicate SoundGates(c: Config, b: Book) {
    && (forall s :: s in b.approved ==>
          && IsNext(b, s) && b.flight.None? && s in b.escalated && b.approved[s] == b.escalated[s] && !InState(b, WaitingAtGate))
    && (forall s :: s in b.escalated ==>
          && b.escalated[s].held.Some? && s in b.accounted
          && b.escalated[s].held.value.attempt < Number(b, s)
          && Accountable(c.budget, b.escalated[s].held.value.usage)
          && KeptUnder(c, s, b.escalated[s].held.value.attempt, b.escalated[s].held.value.result))
    && (InState(b, WaitingAtGate) ==>
          && b.flight.None? && b.approved == map[] && b.replayed.run.openStep.Some?
          && var s := b.replayed.run.openStep.value;
             IsNext(b, s) && s in b.escalated && b.escalated[s].id == b.replayed.run.openEscalation)
  }

  ghost predicate SoundRun(b: Book) {
    && !b.replayed.Refused?
    && (b.replayed.NeverSubmitted? ==> b == BLANK)
    && (b.replayed.At? ==>
          && b.op.Some?
          && (Untouched(b) || Distinct(b.op.value))
          && (InState(b, Submitted) ==> Untouched(b) && b.replayed.run.escalations == map[])
          && (b.completed <= Names(b.op.value))
          && (InState(b, Completed) ==> |b.completed| == |b.op.value.steps|))
    && (forall s :: s in b.completed ==> s in b.accounted)
  }

  ghost predicate Sound(c: Config, b: Book) {
    SoundRun(b) && SoundFlight(c, b) && SoundGates(c, b)
  }

  lemma NextNotCompleted(b: Book, s: string)
    requires b.op.Some? && Distinct(b.op.value) && b.completed <= Names(b.op.value) && IsNext(b, s)
    ensures s !in b.completed
    ensures forall t :: IsNext(b, t) ==> t == s
    ensures b.completed + [s] <= Names(b.op.value)
  {
    var names := Names(b.op.value);
    forall k | 0 <= k < |b.completed| ensures b.completed[k] != s {
      assert b.completed[k] == names[k];
    }
  }

  lemma SoundCompleted(c: Config, b: Book, asked: Option<string>, e: Event)
    requires Sound(c, b) && Allowed(c, b, asked, e) && e.StepCompleted?
    ensures Sound(c, Post(b, e))
  {
    NextNotCompleted(b, e.step);
    assert e.step in b.accounted;
    assert Post(b, e).approved == map[];
  }

  lemma SoundStarted(c: Config, b: Book, asked: Option<string>, e: Event)
    requires Sound(c, b) && Allowed(c, b, asked, e) && e.StepStarted?
    ensures Sound(c, Post(b, e))
  {
    NextNotCompleted(b, e.step);
    assert b.approved == map[];
  }

  lemma SoundEscalated(c: Config, b: Book, asked: Option<string>, e: Event)
    requires Sound(c, b) && Allowed(c, b, asked, e) && e.GateEscalated?
    ensures Sound(c, Post(b, e))
  {
    hide Tally, Affordable, Keys.Key, Keys.Instance, Distinct, Within, Accountable, KeptUnder;
    NextNotCompleted(b, e.step);
    var b' := Post(b, e);
    assert b'.approved == map[];
    assert forall s :: Number(b', s) >= Number(b, s);
    assert SoundRun(b') && SoundFlight(c, b');
    hide SoundRun, SoundFlight;
  }

  lemma DecidedTo(c: Config, b: Book, asked: Option<string>, e: Event)
    requires Sound(c, b) && Allowed(c, b, asked, e) && e.GateDecided?
    ensures InState(b, WaitingAtGate) && e.decided == b.replayed.run.openStep && e.decided.Some?
    ensures e.escalation == b.replayed.run.openEscalation
    ensures Post(b, e) == b.(
      replayed := At(b.replayed.run.(state := if e.outcome.Reject? then Rejected else Running,
                                     openStep := None, openEscalation := None)),
      signals := if e.outcome.SendBack? then b.signals[e.decided.value := e.value] else b.signals,
      approved := if e.outcome.Approve? then map[e.decided.value := b.escalated[e.decided.value]] else map[])
  {
    assert map[][e.decided.value := b.escalated[e.decided.value]] == map[e.decided.value := b.escalated[e.decided.value]];
  }

  lemma SoundDecided(c: Config, b: Book, asked: Option<string>, e: Event)
    requires Sound(c, b) && Allowed(c, b, asked, e) && e.GateDecided?
    ensures Sound(c, Post(b, e))
  {
    DecidedTo(c, b, asked, e);
  }

  /** An event that is not about approvals, completions or escalations leaves the Gates' books as they are. */
  lemma GatesUnmoved(c: Config, b: Book, b': Book)
    requires Sound(c, b) && SoundRun(b')
    requires b'.approved == b.approved && b'.escalated == b.escalated && b'.completed == b.completed && b'.op == b.op
    requires b'.accounted >= b.accounted
    requires b'.flight.None? || b.flight.Some?
    requires forall s :: Number(b', s) >= Number(b, s)
    requires InState(b', WaitingAtGate) ==> b'.replayed == b.replayed
    ensures SoundGates(c, b')
  {
  }

  /** Events of the attempt in flight, and what clients ask for. */
  lemma SoundBeside(c: Config, b: Book, asked: Option<string>, e: Event)
    requires Sound(c, b) && Allowed(c, b, asked, e) && IsFact(e) && !e.StepCompleted? && !e.StepStarted?
    ensures Sound(c, Post(b, e))
  {
    var b' := Post(b, e);
    assert b'.replayed == b.replayed;
    assert SoundRun(b');
    GatesUnmoved(c, b, b');
  }

  lemma SoundMoved(c: Config, b: Book, asked: Option<string>, e: Event)
    requires Sound(c, b) && Allowed(c, b, asked, e)
    requires !IsFact(e) && !e.GateEscalated? && !e.GateDecided? && !e.OpSubmitted?
    ensures Sound(c, Post(b, e))
  {
    var b' := Post(b, e);
    assert b.replayed.At? && b'.replayed.At?;
    assert b'.replayed.run.escalations == b.replayed.run.escalations;
    assert SoundRun(b');
    GatesUnmoved(c, b, b');
  }

  lemma SoundStep(c: Config, b: Book, asked: Option<string>, e: Event)
    requires Sound(c, b) && Allowed(c, b, asked, e)
    ensures Sound(c, Post(b, e))
  {
    if e.StepCompleted? {
      SoundCompleted(c, b, asked, e);
    } else if e.StepStarted? {
      SoundStarted(c, b, asked, e);
    } else if e.GateEscalated? {
      SoundEscalated(c, b, asked, e);
    } else if e.GateDecided? {
      SoundDecided(c, b, asked, e);
    } else if IsFact(e) {
      SoundBeside(c, b, asked, e);
    } else if !e.OpSubmitted? {
      SoundMoved(c, b, asked, e);
    }
  }
}
