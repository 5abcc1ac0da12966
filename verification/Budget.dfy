/** Per-run limits, what a worker reports of its spending, and the running total
    (lifecycle.py; runner.py, `_validate_usage`). Cost is a real: rounding is not modelled. */
module Budget {
  import opened Wrappers

  datatype Dimension = Duration | Tokens | Cost

  /** `None` leaves a dimension unbounded. */
  datatype RunBudget = RunBudget(maxDuration: Option<nat>, maxTokens: Option<nat>, maxCost: Option<real>)

  /** A validated report: only the dimensions the worker named. */
  datatype Usage = Usage(tokens: Option<nat>, cost: Option<real>)

  /** One field of a report as it arrives: absent, not a usable number, or a number. */
  datatype Field<+T> = Missing | Malformed | Given(value: T)

  /** `usage` as the envelope carries it: null, not an object, or an object. */
  datatype RawUsage = NoUsage | NotAnObject | Report(tokens: Field<int>, cost: Field<real>)

  datatype Spend = Spend(tokens: nat, cost: real)

  const NOTHING := Spend(0, 0.0)

  function Required(budget: Option<RunBudget>): (need: (bool, bool)) {
    match budget
    case None => (false, false)
    case Some(b) => (b.maxTokens.Some?, b.maxCost.Some?)
  }

  /** Whether a recorded report accounts for every limited dimension; an unknown one never counts as zero. */
  predicate Accountable(budget: Option<RunBudget>, usage: Option<Usage>) {
    && (Required(budget).0 ==> usage.Some? && usage.value.tokens.Some?)
    && (Required(budget).1 ==> usage.Some? && usage.value.cost.Some?)
  }

  /** Nothing of a report is unusable: each field it has is a number, and not negative. */
  predicate Readable(raw: RawUsage) {
    match raw
    case NoUsage => true
    case NotAnObject => false
    case Report(t, c) => !t.Malformed? && !c.Malformed? && (t.Given? ==> t.value >= 0) && (c.Given? ==> c.value >= 0.0)
  }

  /** The report names a dimension of its spending. */
  predicate NamesTokens(raw: RawUsage) {
    raw.Report? && raw.tokens.Given?
  }

  predicate NamesCost(raw: RawUsage) {
    raw.Report? && raw.cost.Given?
  }

  /** `_validate_usage`: what is recorded of a report, or `UsageUnavailable`: refused exactly when it is unusable or
      does not name what is limited, and recorded as it was given. */
  function ValidateUsage(raw: RawUsage, budget: Option<RunBudget>): (r: Result<Option<Usage>, ()>)
    ensures r.Ok? <==> Readable(raw) && (budget.Some? && budget.value.maxTokens.Some? ==> NamesTokens(raw))
                                     && (budget.Some? && budget.value.maxCost.Some? ==> NamesCost(raw))
    ensures r.Ok? ==> Accountable(budget, r.value)
    ensures r.Ok? && r.value.Some? ==> (r.value.value.cost.Some? ==> r.value.value.cost.value >= 0.0)
    ensures r.Ok? ==> (r.value.None? <==> raw == NoUsage)
    ensures r.Ok? && r.value.Some? ==>
              && (r.value.value.tokens.Some? <==> NamesTokens(raw)) && (NamesTokens(raw) ==> r.value.value.tokens.value == raw.tokens.value)
              && (r.value.value.cost.Some? <==> NamesCost(raw)) && (NamesCost(raw) ==> r.value.value.cost.value == raw.cost.value)
  {
    match raw
    case NotAnObject => Err(())
    case NoUsage => if Required(budget).0 || Required(budget).1 then Err(()) else Ok(None)
    case Report(t, c) =>
      if t.Malformed? || (t.Given? && t.value < 0) || (t.Missing? && Required(budget).0) then Err(())
      else if c.Malformed? || (c.Given? && c.value < 0.0) || (c.Missing? && Required(budget).1) then Err(())
      else Ok(Some(Usage(if t.Given? then Some(t.value) else None, if c.Given? then Some(c.value) else None)))
  }

  /** What a report adds: a dimension it does not name adds nothing. */
  function Add(spent: Spend, usage: Option<Usage>): Spend {
    match usage
    case None => spent
    case Some(u) => Spend(spent.tokens + u.tokens.GetOr(0), spent.cost + u.cost.GetOr(0.0))
  }

  /** The limit a run has reached, in the order they are checked; limits are inclusive. */
  function Exceeded(b: RunBudget, startedAt: nat, spent: Spend, now: nat): Option<Dimension> {
    if b.maxDuration.Some? && now >= startedAt + b.maxDuration.value then Some(Duration)
    else if b.maxTokens.Some? && spent.tokens >= b.maxTokens.value then Some(Tokens)
    else if b.maxCost.Some? && spent.cost >= b.maxCost.value then Some(Cost)
    else None
  }

  /** Strictly below each spending limit. */
  predicate Within(b: RunBudget, spent: Spend) {
    && (b.maxTokens.Some? ==> spent.tokens < b.maxTokens.value)
    && (b.maxCost.Some? ==> spent.cost < b.maxCost.value)
  }

  /** The total of a run's recorded reports, in order; `None` once one of them is unknown. */
  function Tally(budget: Option<RunBudget>, reports: seq<Option<Usage>>): Option<Spend> {
    if reports == [] then Some(NOTHING)
    else
      var last := |reports| - 1;
      var before := Tally(budget, reports[..last]);
      if before.None? || !Accountable(budget, reports[last]) then None
      else Some(Add(before.value, reports[last]))
  }

  lemma TallySnoc(budget: Option<RunBudget>, reports: seq<Option<Usage>>, usage: Option<Usage>)
    ensures Tally(budget, reports + [usage])
         == if Tally(budget, reports).None? || !Accountable(budget, usage) then None
            else Some(Add(Tally(budget, reports).value, usage))
  {
    assert (reports + [usage])[..|reports|] == reports;
  }

  /** The total a pass carries, checked before each step and after each interaction. */
  class BudgetTracker {
    const budget: RunBudget
    const startedAt: nat
    var tokens: nat
    var cost: real

    function Spent(): Spend
      reads this
    {
      Spend(tokens, cost)
    }

    constructor (budget: RunBudget, startedAt: nat)
      ensures this.budget == budget && this.startedAt == startedAt
      ensures Spent() == NOTHING
    {
      this.budget, this.startedAt := budget, startedAt;
      tokens, cost := 0, 0.0;
    }

    /** No limit is reached exactly when the deadline lies ahead and the spending is strictly within. */
    method Check(now: nat) returns (stop: Option<Dimension>)
      ensures stop == Exceeded(budget, startedAt, Spent(), now)
      ensures stop.None? <==> Within(budget, Spent())
                              && (budget.maxDuration.Some? ==> now < startedAt + budget.maxDuration.value)
      ensures stop == Some(Duration) <==> budget.maxDuration.Some? && startedAt + budget.maxDuration.value <= now
      ensures stop == Some(Tokens) ==> budget.maxTokens.Some? && budget.maxTokens.value <= tokens
      ensures stop == Some(Cost) ==> budget.maxCost.Some? && budget.maxCost.value <= cost
      ensures stop == Some(Cost) && budget.maxTokens.Some? ==> tokens < budget.maxTokens.value
    {
      if budget.maxDuration.Some? && now >= startedAt + budget.maxDuration.value {
        return Some(Duration);
      }
      if budget.maxTokens.Some? && tokens >= budget.maxTokens.value {
        return Some(Tokens);
      }
      if budget.maxCost.Some? && cost >= budget.maxCost.value {
        return Some(Cost);
      }
      return None;
    }

    /** The report is counted whether or not it reaches a limit. */
    method Consume(usage: Option<Usage>, now: nat) returns (stop: Option<Dimension>)
      modifies this
      ensures tokens == old(tokens) + if usage.Some? && usage.value.tokens.Some? then usage.value.tokens.value else 0
      ensures cost == old(cost) + if usage.Some? && usage.value.cost.Some? then usage.value.cost.value else 0.0
      ensures Spent() == Add(old(Spent()), usage)
      ensures stop == Exceeded(budget, startedAt, Spent(), now)
    {
      if usage.Some? {
        tokens := tokens + usage.value.tokens.GetOr(0);
        cost := cost + usage.value.cost.GetOr(0.0);
      }
      stop := Check(now);
    }
  }
}
