/** Which run token verifies (run_tokens.py): the reading of a Track by the processes a worker calls.
    A token's digest is taken as injective, so it is modelled as the token. */
module RunTokens {
  import opened Wrappers
  import opened RunMachine
  import opened Ledger
  import opened LedgerSound
  import opened TrackLaws

  /** A run that ended, or whose host stopped, has no worker left. */
  predicate EndsEveryWorker(e: Event) {
    e.RunCompleted? || e.RunFailed? || e.RunCancelled? || e.RunInterrupted? || e.BudgetStopped?
  }

  /** Whether an event lets go of the worker named `instance`, or replaces it. */
  predicate Releases(e: Event, instance: string) {
    || EndsEveryWorker(e)
    || (e.WorkerStarted? && e.instance == instance)
    || (e.WorkerStopped? && e.instance == instance)
  }

  /** The worker started at `k` is up after the first `n` events: nothing since has let go of it. */
  predicate Up(events: seq<Event>, k: nat, n: nat) {
    k < n <= |events| && events[k].WorkerStarted? && forall j :: k < j < n ==> !Releases(events[j], events[k].instance)
  }

  function Without(live: seq<Event>, instance: string): (r: seq<Event>)
    requires forall e :: e in live ==> e.WorkerStarted?
    ensures forall e :: e in r <==> e in live && e.instance != instance
    ensures |r| <= |live|
  {
    if live == [] then []
    else if live[0].instance == instance then Without(live[1..], instance)
    else [live[0]] + Without(live[1..], instance)
  }

  /** `live[instance] = started`: a dictionary keeps the place of a key it already holds. */
  function Placed(live: seq<Event>, started: Event): (r: seq<Event>)
    requires started.WorkerStarted? && forall e :: e in live ==> e.WorkerStarted?
    requires forall i, j :: 0 <= i < j < |live| ==> live[i].instance != live[j].instance
    ensures forall e :: e in r <==> e == started || (e in live && e.instance != started.instance)
    ensures forall i, j :: 0 <= i < j < |r| ==> r[i].instance != r[j].instance
  {
    if live == [] then [started]
    else if live[0].instance == started.instance then [started] + live[1..]
    else [live[0]] + Placed(live[1..], started)
  }

  lemma WithoutDistinct(live: seq<Event>, instance: string)
    requires forall e :: e in live ==> e.WorkerStarted?
    requires forall i, j :: 0 <= i < j < |live| ==> live[i].instance != live[j].instance
    ensures forall i, j :: 0 <= i < j < |Without(live, instance)| ==> Without(live, instance)[i].instance != Without(live, instance)[j].instance
  {
  }

  /** The dictionary holds the workers that are up, and no other. */
  ghost predicate Holds(events: seq<Event>, n: nat, live: seq<Event>)
    requires n <= |events|
  {
    && (forall e :: e in live ==> exists k: nat :: Up(events, k, n) && events[k] == e)
    && (forall k: nat :: Up(events, k, n) ==> events[k] in live)
  }

  lemma UpNext(events: seq<Event>, k: nat, n: nat)
    requires n < |events|
    ensures Up(events, k, n + 1) <==>
              (k == n && events[n].WorkerStarted?) || (Up(events, k, n) && !Releases(events[n], events[k].instance))
  {
  }

  /** `verify`: the worker a token belongs to, while that worker is up. Over any events at all, it answers with
      a worker that is up and was started with the token, and with none exactly when there is none. */
  method Verify(events: seq<Event>, token: string) returns (r: Option<Event>)
    ensures r.Some? ==> exists k: nat :: Up(events, k, |events|) && events[k] == r.value && r.value.token == token
    ensures r.None? <==> forall k: nat :: Up(events, k, |events|) ==> events[k].token != token
  {
    var live: seq<Event> := [];
    for i := 0 to |events|
      invariant forall e :: e in live ==> e.WorkerStarted?
      invariant forall i, j :: 0 <= i < j < |live| ==> live[i].instance != live[j].instance
      invariant Holds(events, i, live)
    {
      ghost var before := live;
      var e := events[i];
      if e.WorkerStarted? {
        live := Placed(live, e);
      } else if e.WorkerStopped? {
        WithoutDistinct(live, e.instance);
        live := Without(live, e.instance);
      } else if EndsEveryWorker(e) {
        live := [];
      }
      StillHolds(events, i, before, live);
    }
    r := None;
    for j := 0 to |live|
      invariant r.Some? ==> r.value in live && r.value.token == token
      invariant r.None? ==> forall m :: 0 <= m < j ==> live[m].token != token
    {
      if r.None? && live[j].token == token {
        r := Some(live[j]);
      }
    }
  }

  lemma StillHolds(events: seq<Event>, i: nat, before: seq<Event>, live: seq<Event>)
    requires i < |events| && Holds(events, i, before)
    requires forall e :: e in before ==> e.WorkerStarted?
    requires forall e :: e in live <==> (e == events[i] && e.WorkerStarted?) || (e in before && !Releases(events[i], e.instance))
    ensures Holds(events, i + 1, live)
  {
    forall e | e in live ensures exists k: nat :: Up(events, k, i + 1) && events[k] == e {
      if e == events[i] && e.WorkerStarted? {
        UpNext(events, i, i);
        assert Up(events, i, i + 1);
      } else {
        var k: nat :| Up(events, k, i) && events[k] == e;
        UpNext(events, k, i);
      }
    }
    forall k: nat | Up(events, k, i + 1) ensures events[k] in live {
      UpNext(events, k, i);
    }
  }

  // ---- On a Track the runner writes -------------------------------------------------------------

  lemma StaysLive(c: Config, b: Book, asked: Option<string>, e: Event, live: Live)
    requires Sound(c, b) && Allowed(c, b, asked, e) && !Releases(e, live.instance)
    requires b.flight.Some? && b.flight.value.live == Some(live)
    ensures Post(b, e).flight.Some? && Post(b, e).flight.value.live == Some(live)
  {
  }

  lemma StartsLive(c: Config, b: Book, asked: Option<string>, e: Event)
    requires Sound(c, b) && Allowed(c, b, asked, e) && e.WorkerStarted?
    ensures b.flight.Some? && b.flight.value.live.None?
    ensures Post(b, e).flight.Some? && Post(b, e).flight.value.live == Some(Live(e.instance, e.token))
  {
  }

  /** A worker that is up is the one the attempt in flight has. */
  lemma {:induction false} UpIsFlown(c: Config, t: seq<Event>, k: nat, n: nat)
    requires Legal(c, t) && n <= |t| && Up(t, k, n)
    ensures var f := Fold(t[..n]).flight; f.Some? && f.value.live == Some(Live(t[k].instance, t[k].token))
    decreases n
  {
    hide Legal, Fold, Post, Allowed, Sound;
    OneEvent(c, t, n - 1);
    if k == n - 1 {
      StartsLive(c, Fold(t[..k]), CancelRequestOf(t[..k]), t[k]);
    } else {
      UpIsFlown(c, t, k, n - 1);
      StaysLive(c, Fold(t[..n - 1]), CancelRequestOf(t[..n - 1]), t[n - 1], Live(t[k].instance, t[k].token));
    }
  }

  /** On a Track the runner writes, a worker that is up is the last one started: so at most one token verifies
      at any moment, and it is that worker's. */
  lemma LastStartedAlone(c: Config, t: seq<Event>, k: nat, n: nat, m: nat)
    requires Legal(c, t) && n <= |t| && Up(t, k, n) && m < n && t[m].WorkerStarted?
    ensures m <= k
    ensures Up(t, m, n) ==> m == k
  {
    hide Legal, Fold, Post, Allowed, Sound;
    if m > k {
      assert Up(t, k, m);
      UpIsFlown(c, t, k, m);
      OneEvent(c, t, m);
      StartsLive(c, Fold(t[..m]), CancelRequestOf(t[..m]), t[m]);
      assert false;
    }
    if m < k && Up(t, m, n) {
      assert Up(t, m, k);
      UpIsFlown(c, t, m, k);
      OneEvent(c, t, k);
      StartsLive(c, Fold(t[..k]), CancelRequestOf(t[..k]), t[k]);
      assert false;
    }
  }

  /** What a token needs to verify, said of the Track alone: it was handed to the last worker started, whose
      instance has not stopped since, in a run that has not ended since. */
  predicate LastHanded(t: seq<Event>, k: nat, token: string) {
    && k < |t| && t[k].WorkerStarted? && t[k].token == token
    && (forall j :: k < j < |t| ==> !t[j].WorkerStarted? && !EndsEveryWorker(t[j]))
    && (forall j :: k < j < |t| ==> !(t[j].WorkerStopped? && t[j].instance == t[k].instance))
  }

  /** On a Track the runner writes, `verify`'s reading is that statement. */
  lemma VerifiesExactlyLastHanded(c: Config, t: seq<Event>, k: nat, token: string)
    requires Legal(c, t)
    ensures LastHanded(t, k, token) <==> Up(t, k, |t|) && t[k].token == token
  {
    hide Legal;
    if Up(t, k, |t|) && t[k].token == token {
      forall j | k < j < |t| ensures !t[j].WorkerStarted? {
        if t[j].WorkerStarted? {
          LastStartedAlone(c, t, k, |t|, j);
        }
      }
    }
  }

  lemma WaitingHasNoFlight(c: Config, b: Book)
    requires Sound(c, b) && b.flight.Some?
    ensures InState(b, Running)
  {
  }

  /** No token verifies but while the run is running: not at a Gate, nor once the run has ended, rejected runs
      included, though `verify` does not take a rejection for an end. */
  lemma VerifiesOnlyWhileRunning(c: Config, t: seq<Event>, k: nat)
    requires Legal(c, t) && Up(t, k, |t|)
    ensures ReplayOf(t).At? && ReplayOf(t).run.state.Running?
  {
    hide Legal, Fold, Sound, ReplayOf;
    UpIsFlown(c, t, k, |t|);
    assert t[..|t|] == t;
    LegalSound(c, t, |t|);
    WaitingHasNoFlight(c, Fold(t));
    ReplayNeverRefuses(c, t);
  }
}
