/** What a legal Track shows, and what it never shows, over all of its events: the promises the runner makes
    about completed steps, approvals, attempts, budgets and cancel requests. */
module TrackLaws {
  import opened Wrappers
  import opened Budget
  import opened RunMachine
  import opened Ledger
  import opened LedgerSound
  import Keys

  // ---- Prefixes ---------------------------------------------------------------------------------

  lemma PrefixFold(t: seq<Event>, k: nat)
    requires k < |t|
    ensures Fold(t[..k + 1]) == Post(Fold(t[..k]), t[k])
  {
    hide Post;
    assert t[..k + 1] == t[..k] + [t[k]];
    FoldSnoc(t[..k], t[k]);
  }

  lemma {:induction false} LegalSound(c: Config, t: seq<Event>, k: nat)
    requires Legal(c, t) && k <= |t|
    ensures Sound(c, Fold(t[..k]))
  {
    if k > 0 {
      hide Post, Allowed, Sound;
      assert LegalAt(c, t, k - 1);
      LegalSound(c, t, k - 1);
      PrefixFold(t, k - 1);
      SoundStep(c, Fold(t[..k - 1]), CancelRequestOf(t[..k - 1]), t[k - 1]);
    }
  }

  /** One event of a legal Track: what it was allowed by, and the ledger it leaves. */
  lemma OneEvent(c: Config, t: seq<Event>, k: nat)
    requires Legal(c, t) && k < |t|
    ensures Sound(c, Fold(t[..k])) && Sound(c, Fold(t[..k + 1]))
    ensures Allowed(c, Fold(t[..k]), CancelRequestOf(t[..k]), t[k])
    ensures Fold(t[..k + 1]) == Post(Fold(t[..k]), t[k])
  {
    hide Post, Allowed, Sound;
    assert LegalAt(c, t, k);
    LegalSound(c, t, k);
    LegalSound(c, t, k + 1);
    PrefixFold(t, k);
  }

  lemma LegalSnoc(c: Config, t: seq<Event>, e: Event)
    requires Legal(c, t) && Allowed(c, Fold(t), CancelRequestOf(t), e)
    ensures Legal(c, t + [e])
  {
    hide Allowed, Fold, CancelRequestOf;
    forall k: nat ensures LegalAt(c, t + [e], k) {
      if k < |t| {
        assert LegalAt(c, t, k);
        assert (t + [e])[..k] == t[..k];
      } else {
        assert (t + [e])[..|t|] == t;
      }
    }
  }

  lemma LegalPrefix(c: Config, t: seq<Event>, j: nat)
    requires Legal(c, t) && j <= |t|
    ensures Legal(c, t[..j])
  {
    hide Allowed, Fold, CancelRequestOf;
    var p := t[..j];
    forall k: nat ensures LegalAt(c, p, k) {
      assert LegalAt(c, t, k);
      assert k < j ==> p[..k] == t[..k];
    }
  }

  // ---- Replay never refuses ---------------------------------------------------------------------

  lemma {:induction false} FoldReplays(t: seq<Event>)
    ensures Fold(t).replayed == Scan(false, t)
  {
    hide ReplayOne;
    if t != [] {
      FoldReplays(t[..|t| - 1]);
      PostReplays(Fold(t[..|t| - 1]), t[|t| - 1]);
    }
  }

  lemma PostReplays(b: Book, e: Event)
    ensures Post(b, e).replayed == ReplayOne(false, b.replayed, e)
  {
    hide ReplayOne;
  }

  lemma UntouchedStep(c: Config, b: Book, asked: Option<string>, e: Event)
    requires Sound(c, b) && Allowed(c, b, asked, e) && !e.RunPickedUp?
    requires b.replayed.NeverSubmitted? || Untouched(b)
    ensures (Post(b, e).replayed.At? && Untouched(Post(b, e))) || Post(b, e).replayed.NeverSubmitted?
    ensures ReplayOne(true, b.replayed, e) == ReplayOne(false, b.replayed, e)
  {
  }

  /** The reading of a Track without pickups as an older one changes nothing on a legal Track. */
  lemma {:induction false} NoPickupNoMove(c: Config, t: seq<Event>, k: nat)
    requires Legal(c, t) && k <= |t| && !HasPickup(t)
    ensures Scan(true, t[..k]) == Scan(false, t[..k])
    ensures Fold(t[..k]).replayed.NeverSubmitted? || Untouched(Fold(t[..k]))
  {
    hide Post, Allowed, Sound, ReplayOne, Fold;
    if k == 0 {
      assert Fold([]).replayed.NeverSubmitted? by { EmptyFold(); }
      assert t[..0] == [];
    } else {
      NoPickupNoMove(c, t, k - 1);
      OneEvent(c, t, k - 1);
      FoldReplays(t[..k - 1]);
      UntouchedStep(c, Fold(t[..k - 1]), CancelRequestOf(t[..k - 1]), t[k - 1]);
      assert t[..k] == t[..k - 1] + [t[k - 1]];
      ScanSnoc(true, t[..k - 1], t[k - 1]);
      ScanSnoc(false, t[..k - 1], t[k - 1]);
    }
  }

  lemma EmptyFold()
    ensures Fold([]) == BLANK
  {
  }

  /** Every Track the runner writes replays: the machine refuses none of it, in the reading `observe` uses. */
  lemma ReplayNeverRefuses(c: Config, t: seq<Event>)
    requires Legal(c, t)
    ensures ReplayOf(t) == Fold(t).replayed
    ensures !ReplayOf(t).Refused?
  {
    hide Fold, Scan, Legal;
    FoldReplays(t);
    LegalSound(c, t, |t|);
    assert t[..|t|] == t;
    if !HasPickup(t) {
      NoPickupNoMove(c, t, |t|);
    }
  }

  // ---- What only grows --------------------------------------------------------------------------

  lemma PostCompleted(b: Book, e: Event)
    ensures Post(b, e).completed == if e.StepCompleted? then b.completed + [e.step] else b.completed
  {
    hide ReplayOne;
  }

  lemma PostReports(b: Book, e: Event)
    ensures Post(b, e).reports == if e.InteractionUsage? then b.reports + [e.usage] else b.reports
  {
    hide ReplayOne;
  }

  lemma StepGrows(c: Config, b: Book, asked: Option<string>, e: Event)
    requires Sound(c, b) && Allowed(c, b, asked, e)
    ensures forall s :: Number(b, s) <= Number(Post(b, e), s)
  {
    hide Post, Allowed, Sound, ReplayOne;
    NeverRefused(c, b, asked, e);
    PostReplays(b, e);
    RetriesGrow(b, e);
    forall s ensures Number(b, s) <= Number(Post(b, e), s) {
      CountsStep(b.replayed, e, s);
    }
  }

  lemma RetriesGrow(b: Book, e: Event)
    ensures b.retries <= Post(b, e).retries
  {
    hide ReplayOne;
  }

  lemma {:induction false} Grows(c: Config, t: seq<Event>, i: nat, j: nat)
    requires Legal(c, t) && i <= j <= |t|
    ensures Fold(t[..i]).completed <= Fold(t[..j]).completed
    ensures Fold(t[..i]).reports <= Fold(t[..j]).reports
    ensures forall s :: Number(Fold(t[..i]), s) <= Number(Fold(t[..j]), s)
    decreases j
  {
    hide Post, Allowed, Sound, Fold, Legal, Number;
    if i < j {
      Grows(c, t, i, j - 1);
      OneEvent(c, t, j - 1);
      StepGrows(c, Fold(t[..j - 1]), CancelRequestOf(t[..j - 1]), t[j - 1]);
      PostCompleted(Fold(t[..j - 1]), t[j - 1]);
      PostReports(Fold(t[..j - 1]), t[j - 1]);
    }
  }

  // ---- Completed steps --------------------------------------------------------------------------

  lemma {:induction false} CompletedSeen(t: seq<Event>, j: nat, step: string)
    requires j <= |t|
    ensures step in Fold(t[..j]).completed <==> exists i :: 0 <= i < j && t[i].StepCompleted? && t[i].step == step
  {
    hide Post, Fold;
    if j > 0 {
      CompletedSeen(t, j - 1, step);
      PrefixFold(t, j - 1);
      PostCompleted(Fold(t[..j - 1]), t[j - 1]);
    } else {
      EmptyFold();
      assert t[..0] == [];
    }
  }

  /** A step is started or completed only while it is the next of its Op, and not completed already. */
  lemma OnlyTheNext(c: Config, t: seq<Event>, k: nat)
    requires Legal(c, t) && k < |t| && (t[k].StepStarted? || t[k].StepCompleted?)
    ensures IsNext(Fold(t[..k]), t[k].step) && t[k].step !in Fold(t[..k]).completed
    ensures forall s :: IsNext(Fold(t[..k]), s) ==> s == t[k].step
  {
    hide Post, Fold;
    OneEvent(c, t, k);
    NextNotCompleted(Fold(t[..k]), t[k].step);
  }

  /** No step completes twice, whatever crashes, retries, send backs and approvals came between. */
  lemma CompletedOnce(c: Config, t: seq<Event>, i: nat, j: nat)
    requires Legal(c, t) && i < j < |t|
    requires t[i].StepCompleted? && t[j].StepCompleted?
    ensures t[i].step != t[j].step
  {
    hide Fold, Legal, Allowed;
    CompletedSeen(t, j, t[i].step);
    OnlyTheNext(c, t, j);
  }

  lemma CompletionIsLast(c: Config, b: Book, asked: Option<string>)
    requires Sound(c, b) && Allowed(c, b, asked, RunCompleted)
    ensures b.op.Some? && b.completed == Names(b.op.value)
  {
  }

  predicate CompletedBefore(t: seq<Event>, k: nat, step: string)
    requires k <= |t|
  {
    exists i :: 0 <= i < k && t[i].StepCompleted? && t[i].step == step
  }

  /** The steps completed so far are a prefix of the Op's, in its order; a run is recorded completed only when
      every one of its steps is. */
  lemma CompletedInOrder(c: Config, t: seq<Event>, k: nat)
    requires Legal(c, t) && k < |t| && Fold(t[..k]).op.Some?
    ensures Fold(t[..k]).completed <= Names(Fold(t[..k]).op.value)
    ensures t[k].StepCompleted? ==> IsNext(Fold(t[..k]), t[k].step)
    ensures t[k].RunCompleted? ==>
              forall step :: step in Names(Fold(t[..k]).op.value) ==> CompletedBefore(t, k, step)
  {
    hide Post, Fold, Legal, Allowed, SoundFlight, SoundGates, Names;
    OneEvent(c, t, k);
    var b := Fold(t[..k]);
    if t[k].StepCompleted? {
      OnlyTheNext(c, t, k);
    }
    if t[k].RunCompleted? {
      CompletionIsLast(c, b, CancelRequestOf(t[..k]));
      forall step | step in Names(b.op.value) ensures CompletedBefore(t, k, step) {
        CompletedSeen(t, k, step);
      }
    }
  }

  // ---- Escalations and approvals ----------------------------------------------------------------

  lemma PostEscalated(b: Book, e: Event)
    ensures Post(b, e).escalated
         == if e.GateEscalated? then b.escalated[e.step := Escalated(e.escalation, e.held)] else b.escalated
  {
    hide ReplayOne;
  }

  lemma NothingEscalated(t: seq<Event>)
    ensures Fold(t[..0]).escalated == map[]
  {
    assert t[..0] == [];
  }

  lemma {:induction false} EscalatedSeen(t: seq<Event>, j: nat, step: string)
    requires j <= |t| && step in Fold(t[..j]).escalated
    ensures exists m :: 0 <= m < j && t[m] == GateEscalated(step, Fold(t[..j]).escalated[step].id, Fold(t[..j]).escalated[step].held)
  {
    hide Post, Fold;
    if j > 0 {
      PrefixFold(t, j - 1);
      PostEscalated(Fold(t[..j - 1]), t[j - 1]);
      if t[j - 1].GateEscalated? && t[j - 1].step == step {
      } else {
        EscalatedSeen(t, j - 1, step);
      }
    } else {
      NothingEscalated(t);
    }
  }

  /** The step is approved with this escalation, or already completed. */
  predicate Stands(b: Book, s: string, held: Escalated) {
    (s in b.approved && b.approved[s] == held) || s in b.completed
  }

  lemma StandsStep(c: Config, b: Book, asked: Option<string>, e: Event, s: string, held: Escalated)
    requires Sound(c, b) && Allowed(c, b, asked, e) && Stands(b, s, held)
    ensures Stands(Post(b, e), s, held)
  {
    if s !in b.completed && e.StepCompleted? {
      NextNotCompleted(b, s);
    }
    if e.GateDecided? {
      DecidedTo(c, b, asked, e);
    }
  }

  lemma StandsFrom(c: Config, b: Book, asked: Option<string>, e: Event)
    requires Sound(c, b) && Allowed(c, b, asked, e) && e.GateDecided? && e.outcome.Approve?
    ensures e.decided.Some? && e.decided.value in b.escalated && b.escalated[e.decided.value].id == e.escalation
    ensures b.escalated[e.decided.value].held.Some?
    ensures Stands(Post(b, e), e.decided.value, b.escalated[e.decided.value])
  {
    DecidedTo(c, b, asked, e);
  }

  /** From an approval on, the step is either still approved with what was escalated, or completed. */
  lemma {:induction false} ApprovalHolds(c: Config, t: seq<Event>, i: nat, j: nat)
    requires Legal(c, t) && i < j <= |t|
    requires t[i].GateDecided? && t[i].outcome.Approve?
    ensures t[i].decided.Some? && t[i].decided.value in Fold(t[..i]).escalated
    ensures Fold(t[..i]).escalated[t[i].decided.value].id == t[i].escalation
    ensures Fold(t[..i]).escalated[t[i].decided.value].held.Some?
    ensures Stands(Fold(t[..j]), t[i].decided.value, Fold(t[..i]).escalated[t[i].decided.value])
    decreases j
  {
    hide Post, Fold, Legal, Allowed, Sound, Stands;
    OneEvent(c, t, i);
    StandsFrom(c, Fold(t[..i]), CancelRequestOf(t[..i]), t[i]);
    if j > i + 1 {
      ApprovalHolds(c, t, i, j - 1);
      OneEvent(c, t, j - 1);
      StandsStep(c, Fold(t[..j - 1]), CancelRequestOf(t[..j - 1]), t[j - 1], t[i].decided.value,
                 Fold(t[..i]).escalated[t[i].decided.value]);
    }
  }

  lemma AnswersApproval(c: Config, b: Book, asked: Option<string>, e: Event, s: string, held: Escalated)
    requires Sound(c, b) && Allowed(c, b, asked, e) && Stands(b, s, held) && held.held.Some?
    ensures e.StepStarted? ==> e.step != s
    ensures e.StepCompleted? && e.step == s ==>
              && e.answers == Some(held.id) && e.attempt == held.held.value.attempt
              && e.usage == held.held.value.usage && e.result == held.held.value.result
  {
    if e.StepStarted? || e.StepCompleted? {
      NextNotCompleted(b, e.step);
    }
  }

  /** What an approver saw is what completes the step: after an approval the step never starts again, through
      any crash and retry, and if it completes, it is with that escalation's id, attempt, usage and result. */
  lemma ApprovedResultStands(c: Config, t: seq<Event>, i: nat, j: nat)
    requires Legal(c, t) && i < j < |t|
    requires t[i].GateDecided? && t[i].outcome.Approve?
    ensures t[i].decided.Some?
    ensures t[j].StepStarted? ==> t[j].step != t[i].decided.value
    ensures t[j].StepCompleted? && t[j].step == t[i].decided.value ==>
              exists m :: 0 <= m < i && t[m].GateEscalated? && t[m].step == t[j].step && t[m].held.Some?
                && t[m].escalation == t[i].escalation && t[j].answers == Some(t[i].escalation)
                && t[j].attempt == t[m].held.value.attempt && t[j].usage == t[m].held.value.usage
                && t[j].result == t[m].held.value.result
  {
    hide Post, Fold, Legal, Allowed, Sound, Stands;
    ApprovalHolds(c, t, i, j);
    OneEvent(c, t, j);
    var s := t[i].decided.value;
    AnswersApproval(c, Fold(t[..j]), CancelRequestOf(t[..j]), t[j], s, Fold(t[..i]).escalated[s]);
    EscalatedSeen(t, i, s);
  }

  lemma EscalatedIs(c: Config, b: Book, asked: Option<string>, e: Event)
    requires Sound(c, b) && Allowed(c, b, asked, e) && e.GateEscalated?
    ensures e.held.Some? && e.held.value.attempt == Number(b, e.step)
    ensures e.held.value.attempt < Number(Post(b, e), e.step)
    ensures e.escalation == Some(EscalationId(c, e.step, e.held.value.attempt))
    ensures KeptUnder(c, e.step, e.held.value.attempt, e.held.value.result)
  {
    NextNotCompleted(b, e.step);
  }

  /** No two escalations of a run share an id, so a decision naming one that is no longer open never answers
      a later one. */
  lemma EscalationIdsDistinct(c: Config, t: seq<Event>, i: nat, j: nat)
    requires Legal(c, t) && i < j < |t| && t[i].GateEscalated? && t[j].GateEscalated?
    ensures t[i].escalation != t[j].escalation
  {
    hide Post, Fold, Legal, Allowed, Sound, Number, Keys.Key;
    OneEvent(c, t, i);
    OneEvent(c, t, j);
    EscalatedIs(c, Fold(t[..i]), CancelRequestOf(t[..i]), t[i]);
    EscalatedIs(c, Fold(t[..j]), CancelRequestOf(t[..j]), t[j]);
    Grows(c, t, i + 1, j);
    if t[i].escalation == t[j].escalation {
      Keys.KeyInjective(c.run, t[i].step, t[i].held.value.attempt, c.run, t[j].step, t[j].held.value.attempt);
    }
  }

  lemma ApprovingStep(c: Config, b: Book, asked: Option<string>, e: Event, s: string)
    requires Sound(c, b) && Allowed(c, b, asked, e) && s in Post(b, e).approved
    ensures if e.GateDecided? then e.outcome.Approve? && e.decided == Some(s) && e.escalation == Post(b, e).approved[s].id
            else s in b.approved && Post(b, e).approved[s] == b.approved[s]
  {
    hide Tally, Affordable, Keys.Key, Distinct, SoundFlight;
    if e.GateDecided? {
      DecidedTo(c, b, asked, e);
    }
  }

  lemma {:induction false} ApprovedSeen(c: Config, t: seq<Event>, j: nat, s: string)
    requires Legal(c, t) && j <= |t| && s in Fold(t[..j]).approved
    ensures exists i :: 0 <= i < j && t[i].GateDecided? && t[i].outcome.Approve? && t[i].decided == Some(s)
              && t[i].escalation == Fold(t[..j]).approved[s].id
  {
    hide Post, Fold, Legal, Allowed, Sound;
    if j == 0 {
      NothingApproved(t);
    } else {
      OneEvent(c, t, j - 1);
      ApprovingStep(c, Fold(t[..j - 1]), CancelRequestOf(t[..j - 1]), t[j - 1], s);
      if !t[j - 1].GateDecided? {
        ApprovedSeen(c, t, j - 1, s);
      }
    }
  }

  lemma NothingApproved(t: seq<Event>)
    ensures Fold(t[..0]).approved == map[]
  {
    assert t[..0] == [];
  }

  lemma AnswersAnApproval(c: Config, b: Book, asked: Option<string>, e: Event)
    requires Allowed(c, b, asked, e) && e.StepCompleted? && e.answers.Some?
    ensures e.step in b.approved && b.approved[e.step].id == e.answers.value
  {
  }

  /** A step that completes as the answer to an escalation was approved by a decision that named it. */
  lemma AnsweredWasApproved(c: Config, t: seq<Event>, j: nat)
    requires Legal(c, t) && j < |t| && t[j].StepCompleted? && t[j].answers.Some?
    ensures exists i :: 0 <= i < j && t[i].GateDecided? && t[i].outcome.Approve? && t[i].decided == Some(t[j].step)
              && t[i].escalation == t[j].answers.value
  {
    hide Post, Fold, Legal, Allowed, Sound;
    OneEvent(c, t, j);
    AnswersAnApproval(c, Fold(t[..j]), CancelRequestOf(t[..j]), t[j]);
    ApprovedSeen(c, t, j, t[j].step);
  }

  // ---- Send backs -------------------------------------------------------------------------------

  function EscalationsOf(t: seq<Event>, s: string): nat {
    if t == [] then 0
    else EscalationsOf(t[..|t| - 1], s) + if t[|t| - 1].GateEscalated? && t[|t| - 1].step == s then 1 else 0
  }

  predicate SendsBack(e: Event, s: string) {
    e.GateDecided? && e.outcome.SendBack? && e.decided == Some(s)
  }

  function SendBacksOf(t: seq<Event>, s: string): nat {
    if t == [] then 0 else SendBacksOf(t[..|t| - 1], s) + if SendsBack(t[|t| - 1], s) then 1 else 0
  }

  function EscalatedSoFar(r: Replayed, s: string): nat {
    if r.At? then r.run.Escalations(s) else 0
  }

  /** Whether a decision on this step is awaited. */
  predicate Awaits(r: Replayed, s: string) {
    r.At? && r.run.state.WaitingAtGate? && r.run.openStep == Some(s)
  }

  lemma CountsStep(r: Replayed, e: Event, s: string)
    requires !ReplayOne(false, r, e).Refused?
    ensures EscalatedSoFar(ReplayOne(false, r, e), s) == EscalatedSoFar(r, s) + if e.GateEscalated? && e.step == s then 1 else 0
    ensures Awaits(ReplayOne(false, r, e), s) ==> (Awaits(r, s) && !SendsBack(e, s)) || (e.GateEscalated? && e.step == s)
    ensures e.GateEscalated? ==> !Awaits(r, s)
    ensures e.GateDecided? ==> r.At? && r.run.state.WaitingAtGate?
  {
  }

  lemma SendingBack(c: Config, b: Book, asked: Option<string>, e: Event, s: string)
    requires Allowed(c, b, asked, e) && SendsBack(e, s)
    ensures b.replayed.At? && b.replayed.run.openStep == Some(s)
    ensures c.reviseLimit.Some? ==> EscalatedSoFar(b.replayed, s) <= c.reviseLimit.value
  {
    hide ReplayOne;
  }

  lemma NeverRefused(c: Config, b: Book, asked: Option<string>, e: Event)
    requires Allowed(c, b, asked, e)
    ensures !ReplayOne(false, b.replayed, e).Refused?
  {
    hide ReplayOne;
  }

  /** Every send back answers an escalation of its own. */
  lemma {:induction false} SendBacksCounted(c: Config, t: seq<Event>, k: nat, s: string)
    requires Legal(c, t) && k <= |t|
    ensures EscalatedSoFar(Fold(t[..k]).replayed, s) == EscalationsOf(t[..k], s)
    ensures SendBacksOf(t[..k], s) + (if Awaits(Fold(t[..k]).replayed, s) then 1 else 0) <= EscalationsOf(t[..k], s)
    ensures c.reviseLimit.Some? ==> SendBacksOf(t[..k], s) <= c.reviseLimit.value
  {
    hide Post, Fold, Legal, Allowed, Sound, EscalatedSoFar, SendsBack, ReplayOne;
    if k == 0 {
      NothingCounted(t, s);
    } else {
      SendBacksCounted(c, t, k - 1, s);
      OneEvent(c, t, k - 1);
      var b, e := Fold(t[..k - 1]), t[k - 1];
      assert t[..k][..k - 1] == t[..k - 1];
      NeverRefused(c, b, CancelRequestOf(t[..k - 1]), e);
      PostReplays(b, e);
      CountsStep(b.replayed, e, s);
      if SendsBack(e, s) {
        SendingBack(c, b, CancelRequestOf(t[..k - 1]), e, s);
        SendsBackDecides(e, s);
      }
    }
  }

  lemma SendsBackDecides(e: Event, s: string)
    requires SendsBack(e, s)
    ensures e.GateDecided?
  {
  }

  lemma NothingCounted(t: seq<Event>, s: string)
    ensures EscalatedSoFar(Fold(t[..0]).replayed, s) == 0 && !Awaits(Fold(t[..0]).replayed, s)
    ensures EscalationsOf(t[..0], s) == 0 && SendBacksOf(t[..0], s) == 0
  {
    assert t[..0] == [];
  }

  /** No step of a run is ever sent back more often than the revision limit, through any retries and restarts;
      and never more often than it escalated. */
  lemma SendBacksWithinLimit(c: Config, t: seq<Event>, s: string)
    requires Legal(c, t)
    ensures SendBacksOf(t, s) <= EscalationsOf(t, s)
    ensures c.reviseLimit.Some? ==> SendBacksOf(t, s) <= c.reviseLimit.value
  {
    hide Legal, Fold;
    SendBacksCounted(c, t, |t|, s);
    assert t[..|t|] == t;
  }

  // ---- Attempts and their keys ------------------------------------------------------------------

  lemma StartedAs(c: Config, t: seq<Event>, k: nat)
    requires Legal(c, t) && k < |t| && t[k].StepStarted?
    ensures t[k].attempt == Number(Fold(t[..k]), t[k].step)
    ensures InState(Fold(t[..k]), Running) && Fold(t[..k]).flight.None?
    ensures Affordable(c, Fold(t[..k]).reports)
    ensures InFlight(Fold(t[..k + 1]), t[k].step, t[k].attempt)
  {
    hide Fold, Affordable;
    OneEvent(c, t, k);
  }

  /** The attempts of a step are numbered without ever going down. */
  lemma AttemptsRise(c: Config, t: seq<Event>, i: nat, j: nat)
    requires Legal(c, t) && i < j < |t|
    requires t[i].StepStarted? && t[j].StepStarted? && t[i].step == t[j].step
    ensures t[i].attempt <= t[j].attempt
  {
    hide Fold, Legal, Number;
    StartedAs(c, t, i);
    StartedAs(c, t, j);
    Grows(c, t, i, j);
  }

  predicate InterruptedBetween(t: seq<Event>, i: nat, j: nat)
    requires j <= |t|
  {
    exists k :: i < k < j && t[k].RunInterrupted?
  }

  /** What has become of an attempt that nothing interrupted. */
  predicate Accounted(b: Book, step: string, attempt: nat) {
    || InFlight(b, step, attempt)
    || step in b.completed
    || Number(b, step) > attempt
    || (b.replayed.At? && b.replayed.run.state.Ended() && !InState(b, Interrupted))
  }

  lemma BesideAccounted(c: Config, b: Book, asked: Option<string>, e: Event, step: string, attempt: nat)
    requires Sound(c, b) && Allowed(c, b, asked, e) && Accounted(b, step, attempt) && IsFact(e)
    requires Number(Post(b, e), step) >= attempt
    ensures Accounted(Post(b, e), step, attempt)
  {
    hide Tally, Affordable, Keys.Key, KeptUnder, EscalationId, SoundGates;
  }

  lemma AccountedStep(c: Config, b: Book, asked: Option<string>, e: Event, step: string, attempt: nat)
    requires Sound(c, b) && Allowed(c, b, asked, e) && Accounted(b, step, attempt) && !e.RunInterrupted?
    requires Number(b, step) >= attempt
    ensures Accounted(Post(b, e), step, attempt)
  {
    hide Tally, Affordable, Keys.Key, KeptUnder, EscalationId;
    StepGrows(c, b, asked, e);
    if IsFact(e) {
      BesideAccounted(c, b, asked, e, step, attempt);
    }
  }

  lemma {:induction false} AttemptOutcome(c: Config, t: seq<Event>, i: nat, j: nat)
    requires Legal(c, t) && i < j <= |t| && t[i].StepStarted?
    ensures InterruptedBetween(t, i, j) || Accounted(Fold(t[..j]), t[i].step, t[i].attempt)
    decreases j
  {
    hide Post, Fold, Legal, Allowed, Sound, Number;
    StartedAs(c, t, i);
    if j > i + 1 {
      AttemptOutcome(c, t, i, j - 1);
      if t[j - 1].RunInterrupted? || InterruptedBetween(t, i, j - 1) {
        assert InterruptedBetween(t, i, j);
      } else {
        OneEvent(c, t, j - 1);
        Grows(c, t, i, j - 1);
        AccountedStep(c, Fold(t[..j - 1]), CancelRequestOf(t[..j - 1]), t[j - 1], t[i].step, t[i].attempt);
      }
    }
  }

  lemma RaisesNumber(c: Config, b: Book, asked: Option<string>, e: Event, step: string)
    requires Sound(c, b) && Allowed(c, b, asked, e)
    requires (e.GateEscalated? && e.step == step) || (e.RetryRequested? && e.kind.New?)
    ensures Number(Post(b, e), step) > Number(b, step)
  {
  }

  /** Two starts of a step are handed one idempotency key only when the run was interrupted between them, with
      no escalation of the step and no new-attempt retry between; starts of different steps never share one. */
  lemma SharedKeyMeansInterrupted(c: Config, t: seq<Event>, i: nat, j: nat)
    requires Legal(c, t) && i < j < |t| && t[i].StepStarted? && t[j].StepStarted?
    requires Keys.Key(c.run, t[i].step, t[i].attempt) == Keys.Key(c.run, t[j].step, t[j].attempt)
    ensures t[i].step == t[j].step && t[i].attempt == t[j].attempt
    ensures InterruptedBetween(t, i, j)
    ensures forall k :: i < k < j ==> !(t[k].GateEscalated? && t[k].step == t[i].step)
    ensures forall k :: i < k < j ==> !(t[k].RetryRequested? && t[k].kind.New?)
  {
    hide Post, Fold, Legal, Allowed, Sound, Number, Keys.Key;
    Keys.KeyInjective(c.run, t[i].step, t[i].attempt, c.run, t[j].step, t[j].attempt);
    var s := t[i].step;
    StartedAs(c, t, i);
    StartedAs(c, t, j);
    AttemptOutcome(c, t, i, j);
    OnlyTheNext(c, t, j);
    forall k | i < k < j
      ensures !(t[k].GateEscalated? && t[k].step == s) && !(t[k].RetryRequested? && t[k].kind.New?)
    {
      Grows(c, t, i, k);
      Grows(c, t, k + 1, j);
      OneEvent(c, t, k);
      if (t[k].GateEscalated? && t[k].step == s) || (t[k].RetryRequested? && t[k].kind.New?) {
        RaisesNumber(c, Fold(t[..k]), CancelRequestOf(t[..k]), t[k], s);
        assert false;
      }
    }
  }

  // ---- Budgets ----------------------------------------------------------------------------------

  lemma {:induction false} TallyUnknownStays(budget: Option<RunBudget>, a: seq<Option<Usage>>, b: seq<Option<Usage>>)
    requires a <= b && Tally(budget, a).None?
    ensures Tally(budget, b).None?
    decreases |b|
  {
    if a != b {
      assert a <= b[..|b| - 1];
      TallyUnknownStays(budget, a, b[..|b| - 1]);
    }
  }

  /** The run was submitted by the event at `k`: the first to submit one. */
  predicate IsSubmission(t: seq<Event>, k: nat) {
    k < |t| && t[k].OpSubmitted? && forall j :: 0 <= j < k ==> !t[j].OpSubmitted?
  }

  lemma PostOp(b: Book, e: Event)
    ensures Post(b, e).op == if b.op.None? && e.OpSubmitted? then Some(e.op) else b.op
    ensures Post(b, e).startedAt == if b.op.None? && e.OpSubmitted? then e.at else b.startedAt
  {
    hide ReplayOne;
  }

  /** Over any events: a run's Op, and when it started, are those of its submission. */
  lemma {:induction false} SubmissionIsFirst(t: seq<Event>)
    ensures match Fold(t).op
            case None => forall j :: 0 <= j < |t| ==> !t[j].OpSubmitted?
            case Some(op) => exists k: nat :: IsSubmission(t, k) && t[k].op == op && t[k].at == Fold(t).startedAt
  {
    hide Post;
    if t != [] {
      var n := |t| - 1;
      SubmissionIsFirst(t[..n]);
      PostOp(Fold(t[..n]), t[n]);
      assert forall j :: 0 <= j < n ==> t[..n][j] == t[j];
      if Fold(t[..n]).op.Some? {
        var k: nat :| IsSubmission(t[..n], k) && t[..n][k].op == Fold(t).op.value && t[..n][k].at == Fold(t).startedAt;
        assert IsSubmission(t, k);
      } else if t[n].OpSubmitted? {
        assert IsSubmission(t, n);
      }
    }
  }

  /** The deadline is not reached: counted from when the run was submitted. */
  ghost predicate DeadlineAhead(b: RunBudget, t: seq<Event>, now: nat) {
    b.maxDuration.Some? ==> forall k: nat :: IsSubmission(t, k) ==> now < t[k].at + b.maxDuration.value
  }

  lemma DeadlineIsFromTheStart(b: RunBudget, t: seq<Event>, now: nat)
    requires Fold(t).op.Some?
    ensures DeadlineAhead(b, t, now) <==> (b.maxDuration.Some? ==> now < Fold(t).startedAt + b.maxDuration.value)
  {
    hide Fold;
    SubmissionIsFirst(t);
  }

  /** The tokens that the reports of a Track name, and the cost: two plain sums over its events. */
  function TokensNamed(t: seq<Event>): nat {
    if t == [] then 0
    else
      TokensNamed(t[..|t| - 1]) + match t[|t| - 1]
                                  case InteractionUsage(_, _, Some(Usage(Some(n), _))) => n
                                  case _ => 0
  }

  function CostNamed(t: seq<Event>): real {
    if t == [] then 0.0
    else
      CostNamed(t[..|t| - 1]) + match t[|t| - 1]
                                case InteractionUsage(_, _, Some(Usage(_, Some(x)))) => x
                                case _ => 0.0
  }

  /** Every report of the Track names what is limited. */
  predicate AllNamed(b: RunBudget, t: seq<Event>) {
    forall i :: 0 <= i < |t| && t[i].InteractionUsage? ==>
      && (b.maxTokens.Some? ==> t[i].usage.Some? && t[i].usage.value.tokens.Some?)
      && (b.maxCost.Some? ==> t[i].usage.Some? && t[i].usage.value.cost.Some?)
  }

  /** What a Track's reports come to is known, and strictly below each limit. */
  predicate BelowLimits(b: RunBudget, t: seq<Event>) {
    && AllNamed(b, t)
    && (b.maxTokens.Some? ==> TokensNamed(t) < b.maxTokens.value)
    && (b.maxCost.Some? ==> CostNamed(t) < b.maxCost.value)
  }

  /** The running total is the two sums, known exactly when every report names what is limited. */
  lemma {:induction false} TallyIsSums(b: RunBudget, t: seq<Event>)
    ensures Tally(Some(b), Fold(t).reports) == if AllNamed(b, t) then Some(Spend(TokensNamed(t), CostNamed(t))) else None
  {
    hide Post, Fold, Tally;
    if t == [] {
      NothingReported(b);
    } else {
      var before, e := t[..|t| - 1], t[|t| - 1];
      assert t == before + [e];
      TallyIsSums(b, before);
      FoldSnoc(before, e);
      PostReports(Fold(before), e);
      AllNamedSnoc(b, before, e);
      if e.InteractionUsage? {
        TallySnoc(Some(b), Fold(before).reports, e.usage);
        AddNames(e.usage);
      }
    }
  }

  lemma NothingReported(b: RunBudget)
    ensures Tally(Some(b), Fold([]).reports) == Some(Spend(0, 0.0))
  {
  }

  lemma AllNamedSnoc(b: RunBudget, t: seq<Event>, e: Event)
    ensures AllNamed(b, t + [e]) <==> AllNamed(b, t) && (e.InteractionUsage? ==> Accountable(Some(b), e.usage))
  {
    var on := t + [e];
    assert on[|t|] == e && forall i :: 0 <= i < |t| ==> on[i] == t[i];
  }

  lemma AddNames(usage: Option<Usage>)
    ensures forall spent: Spend ::
              Add(spent, usage).tokens == spent.tokens + (match usage case Some(Usage(Some(n), _)) => n case _ => 0)
    ensures forall spent: Spend ::
              Add(spent, usage).cost == spent.cost + (match usage case Some(Usage(_, Some(x))) => x case _ => 0.0)
  {
  }

  /** Every step starts with the recorded spending known and strictly below each limit: as the running total has it,
      and as the reports of the Track add up. */
  lemma StartsWithinBudget(c: Config, t: seq<Event>, k: nat)
    requires Legal(c, t) && k < |t| && t[k].StepStarted? && c.budget.Some?
    ensures BelowLimits(c.budget.value, t[..k])
    ensures Tally(c.budget, Fold(t[..k]).reports).Some?
    ensures Within(c.budget.value, Tally(c.budget, Fold(t[..k]).reports).value)
  {
    hide Fold, Legal, AllNamed;
    StartedAs(c, t, k);
    TallyIsSums(c.budget.value, t[..k]);
  }

  lemma AffordableIsBelow(c: Config, t: seq<Event>)
    requires c.budget.Some? && Affordable(c, Fold(t).reports)
    ensures BelowLimits(c.budget.value, t)
  {
    hide Fold, AllNamed;
    TallyIsSums(c.budget.value, t);
  }

  predicate Overshoots(c: Config, b: Book) {
    b.reports != [] ==> Affordable(c, b.reports[..|b.reports| - 1])
  }

  lemma OvershootStep(c: Config, b: Book, asked: Option<string>, e: Event)
    requires Sound(c, b) && Allowed(c, b, asked, e) && Overshoots(c, b)
    ensures Overshoots(c, Post(b, e))
  {
    hide Affordable, ReplayOne;
    if e.InteractionUsage? {
      assert (b.reports + [e.usage])[..|b.reports|] == b.reports;
    }
  }

  /** The overshoot of a run is less than one report: without its last report, the recorded spending is known
      and strictly within every limit. So wherever a report was recorded, those before it add up to less than each. */
  lemma {:induction false} OvershootIsOneReport(c: Config, t: seq<Event>, k: nat)
    requires Legal(c, t) && k <= |t|
    ensures var r := Fold(t[..k]).reports; r != [] ==> Affordable(c, r[..|r| - 1])
    ensures forall m :: 0 <= m < k && t[m].InteractionUsage? && c.budget.Some? ==> BelowLimits(c.budget.value, t[..m])
  {
    hide Post, Fold, Legal, Allowed, Sound, Affordable, BelowLimits;
    if k > 0 {
      OvershootIsOneReport(c, t, k - 1);
      OneEvent(c, t, k - 1);
      OvershootStep(c, Fold(t[..k - 1]), CancelRequestOf(t[..k - 1]), t[k - 1]);
      if t[k - 1].InteractionUsage? && c.budget.Some? {
        PostReports(Fold(t[..k - 1]), t[k - 1]);
        var r := Fold(t[..k - 1]).reports;
        assert (r + [t[k - 1].usage])[..|r|] == r;
        AffordableIsBelow(c, t[..k - 1]);
      }
    } else {
      EmptyFold();
      assert t[..0] == [];
    }
  }

  /** Under a spending limit, once a report is recorded that does not account for it, no step of the run ever
      starts again, whatever retries and restarts follow. */
  lemma UnknownSpendingIsFinal(c: Config, t: seq<Event>, i: nat, j: nat)
    requires Legal(c, t) && i < j < |t|
    requires t[i].InteractionUsage? && !Accountable(c.budget, t[i].usage)
    ensures !t[j].StepStarted?
  {
    hide Post, Fold, Legal;
    PrefixFold(t, i);
    PostReports(Fold(t[..i]), t[i]);
    TallySnoc(c.budget, Fold(t[..i]).reports, t[i].usage);
    Grows(c, t, i + 1, j);
    TallyUnknownStays(c.budget, Fold(t[..i + 1]).reports, Fold(t[..j]).reports);
    if t[j].StepStarted? {
      StartsWithinBudget(c, t, j);
    }
  }

  // ---- Requests to cancel -----------------------------------------------------------------------

  /** The request at `i` was made, no retry follows it, and an earlier one was outlived by a retry. */
  predicate StandsAt(t: seq<Event>, i: nat, actor: string) {
    && i < |t| && t[i] == CancelRequested(actor)
    && (forall k :: i < k < |t| ==> !t[k].RetryRequested?)
    && (forall k :: 0 <= k < i && t[k].CancelRequested? ==> exists m :: k < m < i && t[m].RetryRequested?)
  }

  predicate Outlived(t: seq<Event>) {
    forall i :: 0 <= i < |t| && t[i].CancelRequested? ==> exists m :: i < m < |t| && t[m].RetryRequested?
  }

  lemma StandsAtSnoc(t: seq<Event>, e: Event, i: nat, actor: string)
    requires StandsAt(t, i, actor) && !e.RetryRequested?
    ensures StandsAt(t + [e], i, actor)
  {
    forall k | 0 <= k < i && (t + [e])[k].CancelRequested?
      ensures exists m :: k < m < i && (t + [e])[m].RetryRequested?
    {
      assert t[k].CancelRequested?;
      var m :| k < m < i && t[m].RetryRequested?;
      assert (t + [e])[m].RetryRequested?;
    }
  }

  lemma OutlivedSnoc(t: seq<Event>, e: Event)
    requires Outlived(t) || e.RetryRequested?
    requires !e.CancelRequested?
    ensures Outlived(t + [e])
  {
    forall i | 0 <= i < |t + [e]| && (t + [e])[i].CancelRequested?
      ensures exists m :: i < m < |t + [e]| && (t + [e])[m].RetryRequested?
    {
      if e.RetryRequested? {
        assert (t + [e])[|t|].RetryRequested?;
      } else {
        assert t[i].CancelRequested?;
        var m :| i < m < |t| && t[m].RetryRequested?;
        assert (t + [e])[m].RetryRequested?;
      }
    }
  }

  lemma StandsAtFirst(t: seq<Event>, actor: string)
    requires Outlived(t)
    ensures StandsAt(t + [CancelRequested(actor)], |t|, actor)
  {
    var u := t + [CancelRequested(actor)];
    forall k | 0 <= k < |t| && u[k].CancelRequested?
      ensures exists m :: k < m < |t| && u[m].RetryRequested?
    {
      assert t[k].CancelRequested?;
      var m :| k < m < |t| && t[m].RetryRequested?;
      assert u[m].RetryRequested?;
    }
  }

  /** Over any events at all: what `cancel_request` reads is the first request made since the last retry, and
      it reads none exactly when every request was outlived by a retry. */
  lemma {:induction false} CancelRequestIsStanding(t: seq<Event>)
    ensures match CancelRequestOf(t)
            case Some(actor) => exists i: nat :: StandsAt(t, i, actor)
            case None => Outlived(t)
  {
    if t != [] {
      var n := |t| - 1;
      var p, e := t[..n], t[n];
      assert t == p + [e];
      CancelRequestIsStanding(p);
      CancelRequestSnoc(p, e);
      match CancelRequestOf(p)
      case Some(actor) =>
        if e.RetryRequested? {
          OutlivedSnoc(p, e);
        } else {
          var i: nat :| StandsAt(p, i, actor);
          StandsAtSnoc(p, e, i, actor);
        }
      case None =>
        if e.CancelRequested? {
          StandsAtFirst(p, e.actor);
        } else {
          OutlivedSnoc(p, e);
        }
    }
  }

  /** At most one request stands: it is the only one `cancel_request` can read. */
  lemma StandingRequestUnique(t: seq<Event>, i: nat, actor: string)
    requires StandsAt(t, i, actor)
    ensures CancelRequestOf(t) == Some(actor)
  {
    CancelRequestIsStanding(t);
    assert t[i].CancelRequested?;
    if CancelRequestOf(t).Some? {
      var a := CancelRequestOf(t).value;
      var j: nat :| StandsAt(t, j, a);
      assert t[j].CancelRequested?;
    }
  }

  /** Between two requests there is a retry, and none is recorded while the run is ended. */
  lemma OneRequestPerAttempt(c: Config, t: seq<Event>, i: nat, j: nat)
    requires Legal(c, t) && i < j < |t| && t[i].CancelRequested? && t[j].CancelRequested?
    ensures exists k :: i < k < j && t[k].RetryRequested?
    ensures ReplayOf(t[..j]).At? && !ReplayOf(t[..j]).run.state.Ended()
  {
    hide Fold, Legal, ReplayOf, Sound, Post;
    var p := t[..j];
    OneEvent(c, t, j);
    CancelRequestIsStanding(p);
    assert p[i].CancelRequested?;
    var m :| i < m < |p| && p[m].RetryRequested?;
    assert t[m].RetryRequested?;
    LegalPrefix(c, t, j);
    ReplayNeverRefuses(c, p);
  }
}
