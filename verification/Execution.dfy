/** Double-leg execution facts: fills, exposure and compensation budget (crates/core/src/execution.rs). */
module Execution {
  import opened Common
  import opened Text

  datatype ExecutionState = Planned | Running | CompensationPlanned | Completed | ManualRequired

  datatype Decision = NoAction | PlanCompensation | Escalate

  datatype EventType = CompensationDecided | CompletedEvent | ManualEscalated

  /** One row of `execution_facts`. */
  datatype Fact = Fact(
    targetQuantity: real,
    maxUnmatchedExposure: real,
    compensationBudget: real,
    state: ExecutionState,
    legAFilled: real,
    legBFilled: real,
    unmatchedQuantity: real,
    unmatchedExposure: real,
    compensationSpent: real,
    lastVersion: nat)

  /** One row of `execution_events`, with its payload. */
  datatype Event = Event(
    version: nat,
    kind: EventType,
    legAFilled: real,
    legBFilled: real,
    unmatchedQuantity: real,
    unmatchedExposure: real,
    estimatedCost: real)

  datatype Outcome = Outcome(decision: Decision, quantity: real, estimatedCost: real, snapshot: Fact)

  datatype ExecutionError =
    | BadId
    | BadLimits
    | BadValues
    | PlanMissing
    | FactMissing
    | ConflictingLimits
    | Terminal
    | FillsMovedBackwards

  function NewFact(target: real, exposure: real, budget: real): Fact {
    Fact(target, exposure, budget, Planned, 0.0, 0.0, 0.0, 0.0, 0.0, 0)
  }

  predicate GoodLimits(target: real, exposure: real, budget: real) {
    target > 0.0 && exposure >= 0.0 && budget >= 0.0
  }

  /** The arguments of one evaluation. */
  datatype Fills = Fills(legA: real, legB: real, exposurePerUnit: real, costPerUnit: real)

  predicate GoodFills(f: Fills) {
    f.legA >= 0.0 && f.legB >= 0.0 && f.exposurePerUnit >= 0.0 && f.costPerUnit >= 0.0
  }

  function Decide(fact: Fact, f: Fills): Decision {
    var mismatch := Abs(f.legA - f.legB);
    if f.legA > fact.targetQuantity || f.legB > fact.targetQuantity then Escalate
    else if mismatch == 0.0 then NoAction
    else if Times(mismatch, f.exposurePerUnit) > fact.maxUnmatchedExposure
         || fact.compensationSpent + Times(mismatch, f.costPerUnit) > fact.compensationBudget then Escalate
    else PlanCompensation
  }

  function StateOf(d: Decision): ExecutionState {
    match d
    case NoAction => Completed
    case PlanCompensation => CompensationPlanned
    case Escalate => ManualRequired
  }

  function EventOf(d: Decision): EventType {
    match d
    case NoAction => CompletedEvent
    case PlanCompensation => CompensationDecided
    case Escalate => ManualEscalated
  }

  /** The row and event one evaluation commits, or why it is refused. */
  function Evaluated(fact: Fact, f: Fills): Result<(Fact, Event), ExecutionError> {
    if !GoodFills(f) then Err(BadValues)
    else if fact.state == Completed || fact.state == ManualRequired then Err(Terminal)
    else if f.legA < fact.legAFilled || f.legB < fact.legBFilled then Err(FillsMovedBackwards)
    else
      var mismatch := Abs(f.legA - f.legB);
      var exposure := Times(mismatch, f.exposurePerUnit);
      var cost := Times(mismatch, f.costPerUnit);
      var d := Decide(fact, f);
      Ok((fact.(state := StateOf(d), legAFilled := f.legA, legBFilled := f.legB,
                unmatchedQuantity := mismatch, unmatchedExposure := exposure,
                compensationSpent := fact.compensationSpent + cost, lastVersion := fact.lastVersion + 1),
          Event(fact.lastVersion + 1, EventOf(d), f.legA, f.legB, mismatch, exposure, cost)))
  }

  /** The execution tables behind one held domain. */
  class ExecutionCore {
    const domain: (string, string)
    var facts: map<string, Fact>
    var events: map<string, seq<Event>>

    ghost predicate Valid()
      reads this
    {
      facts.Keys == events.Keys && forall id | id in facts :: Consistent(facts[id], events[id])
    }

    constructor (domain: (string, string))
      ensures Valid() && this.domain == domain && facts == map[] && events == map[]
    {
      this.domain := domain;
      facts, events := map[], map[];
    }

    /** Initialises the row of a plan that the plan tables hold for this domain. */
    method InitializePlan(plans: map<string, (string, string)>, planId: string, target: real, exposure: real, budget: real)
      returns (r: Result<Fact, ExecutionError>)
      requires Valid()
      modifies this`facts, this`events
      ensures Valid()
      ensures var known := planId in plans && plans[planId] == domain;
              && (!ValidId(planId) ==> r == Err(BadId))
              && (ValidId(planId) && !GoodLimits(target, exposure, budget) ==> r == Err(BadLimits))
              && (ValidId(planId) && GoodLimits(target, exposure, budget) && !known ==> r == Err(PlanMissing))
              && (r.Ok? ==>
                    && planId in facts && r.value == facts[planId]
                    && (r.value.targetQuantity, r.value.maxUnmatchedExposure, r.value.compensationBudget) == (target, exposure, budget))
              // A row that exists is never touched, whatever limits the call names.
              && (planId in old(facts) || !ValidId(planId) || !GoodLimits(target, exposure, budget) || !known ==>
                    facts == old(facts) && events == old(events))
              && (ValidId(planId) && GoodLimits(target, exposure, budget) && known && planId !in old(facts) ==>
                    && r == Ok(NewFact(target, exposure, budget))
                    && facts == old(facts)[planId := NewFact(target, exposure, budget)] && events == old(events)[planId := []])
              && (ValidId(planId) && GoodLimits(target, exposure, budget) && known && planId in old(facts) ==>
                    var f := old(facts)[planId];
                    r == if (f.targetQuantity, f.maxUnmatchedExposure, f.compensationBudget) == (target, exposure, budget)
                         then Ok(f) else Err(ConflictingLimits))
    {
      if !ValidId(planId) {
        return Err(BadId);
      }
      if target <= 0.0 || exposure < 0.0 || budget < 0.0 {
        return Err(BadLimits);
      }
      if planId !in plans || plans[planId] != domain {
        return Err(PlanMissing);
      }
      if planId !in facts {
        FreshIsConsistent(target, exposure, budget);
        facts := facts[planId := NewFact(target, exposure, budget)];
        events := events[planId := []];
      }
      var loaded := Load(planId);
      var snapshot := loaded.value;
      if snapshot.targetQuantity != target || snapshot.maxUnmatchedExposure != exposure || snapshot.compensationBudget != budget {
        return Err(ConflictingLimits);
      }
      return Ok(snapshot);
    }

    method Evaluate(planId: string, legA: real, legB: real, exposurePerUnit: real, costPerUnit: real)
      returns (r: Result<Outcome, ExecutionError>)
      requires Valid()
      modifies this`facts, this`events
      ensures Valid()
      ensures r.Err? ==> facts == old(facts) && events == old(events)
      ensures var f := Fills(legA, legB, exposurePerUnit, costPerUnit);
              && (!ValidId(planId) ==> r == Err(BadId))
              && (ValidId(planId) && !GoodFills(f) ==> r == Err(BadValues))
              && (ValidId(planId) && GoodFills(f) && planId !in old(facts) ==> r == Err(FactMissing))
              && (ValidId(planId) && GoodFills(f) && planId in old(facts) ==>
                    var e := Evaluated(old(facts)[planId], f);
                    && (e.Err? ==> r == Err(e.error))
                    && (e.Ok? ==>
                          && facts == old(facts)[planId := e.value.0]
                          && events == old(events)[planId := old(events)[planId] + [e.value.1]]
                          && r == Ok(Outcome(Decide(old(facts)[planId], f), e.value.1.unmatchedQuantity, e.value.1.estimatedCost, e.value.0))))
    {
      hide ValidId, Consistent, Times;
      if !ValidId(planId) {
        return Err(BadId);
      }
      if legA < 0.0 || legB < 0.0 || exposurePerUnit < 0.0 || costPerUnit < 0.0 {
        return Err(BadValues);
      }
      if planId !in facts {
        return Err(FactMissing);
      }
      var current := facts[planId];
      if current.state == Completed || current.state == ManualRequired {
        return Err(Terminal);
      }
      if legA < current.legAFilled || legB < current.legBFilled {
        return Err(FillsMovedBackwards);
      }
      ghost var log := events[planId];
      ghost var f := Fills(legA, legB, exposurePerUnit, costPerUnit);
      var mismatch := Abs(legA - legB);
      var exposure := Times(mismatch, exposurePerUnit);
      var estimatedCost := Times(mismatch, costPerUnit);
      var overfilled := legA > current.targetQuantity || legB > current.targetQuantity;
      var state, decision;
      if overfilled {
        state, decision := ManualRequired, Escalate;
      } else if mismatch == 0.0 {
        state, decision := Completed, NoAction;
      } else if exposure > current.maxUnmatchedExposure || current.compensationSpent + estimatedCost > current.compensationBudget {
        state, decision := ManualRequired, Escalate;
      } else {
        state, decision := CompensationPlanned, PlanCompensation;
      }
      var version := current.lastVersion + 1;
      var eventType := match decision
        case NoAction => CompletedEvent
        case PlanCompensation => CompensationDecided
        case Escalate => ManualEscalated;
      var event := Event(version, eventType, legA, legB, mismatch, exposure, estimatedCost);
      var updated := current.(state := state, legAFilled := legA, legBFilled := legB,
                              unmatchedQuantity := mismatch, unmatchedExposure := exposure,
                              compensationSpent := current.compensationSpent + estimatedCost, lastVersion := version);
      EvaluationKeepsConsistent(current, log, f);
      events := events[planId := events[planId] + [event]];
      facts := facts[planId := updated];
      var loaded := Load(planId);
      return Ok(Outcome(decision, mismatch, estimatedCost, loaded.value));
    }

    method Load(planId: string) returns (r: Result<Fact, ExecutionError>)
      ensures r == if planId in facts then Ok(facts[planId]) else Err(FactMissing)
    {
      return if planId in facts then Ok(facts[planId]) else Err(FactMissing);
    }
  }

  // ---------------------------------------------------------------- runs

  function Costs(log: seq<Event>): real {
    if log == [] then 0.0 else Costs(log[..|log| - 1]) + log[|log| - 1].estimatedCost
  }

  /** The row as its event log determines it. */
  function Materialised(target: real, exposure: real, budget: real, log: seq<Event>): Fact {
    if log == [] then NewFact(target, exposure, budget)
    else
      var last := log[|log| - 1];
      Fact(target, exposure, budget,
           match last.kind
             case CompensationDecided => CompensationPlanned
             case CompletedEvent => Completed
             case ManualEscalated => ManualRequired,
           last.legAFilled, last.legBFilled, last.unmatchedQuantity, last.unmatchedExposure, Costs(log), |log|)
  }

  /** Versions count from one, only the last event may be terminal, fills never fall. */
  ghost predicate GoodLog(log: seq<Event>) {
    && (forall i | 0 <= i < |log| :: log[i].version == i + 1)
    && (forall i | 0 <= i < |log| - 1 :: log[i].kind == CompensationDecided)
    && (forall i, j | 0 <= i < j < |log| :: log[i].legAFilled <= log[j].legAFilled && log[i].legBFilled <= log[j].legBFilled)
  }

  predicate WithinLimits(fact: Fact) {
    && fact.compensationSpent <= fact.compensationBudget
    && fact.unmatchedExposure <= fact.maxUnmatchedExposure
    && fact.legAFilled <= fact.targetQuantity && fact.legBFilled <= fact.targetQuantity
  }

  predicate GoodRow(fact: Fact) {
    && GoodLimits(fact.targetQuantity, fact.maxUnmatchedExposure, fact.compensationBudget)
    && fact.legAFilled >= 0.0 && fact.legBFilled >= 0.0 && fact.compensationSpent >= 0.0
    && StateFits(fact)
  }

  /** The state of a row told from its numbers: escalated exactly when a limit is broken; otherwise
      planned before any evaluation, completed when the legs match, else awaiting compensation. */
  predicate StateFits(fact: Fact) {
    && (fact.state == ManualRequired <==> !WithinLimits(fact))
    && (fact.state == Planned <==> fact.lastVersion == 0)
    && (fact.state == Completed <==> fact.lastVersion > 0 && WithinLimits(fact) && fact.legAFilled == fact.legBFilled)
    && (fact.state == CompensationPlanned <==> fact.lastVersion > 0 && WithinLimits(fact) && fact.legAFilled != fact.legBFilled)
  }

  /** What every committed row and log satisfy together. */
  ghost predicate Consistent(fact: Fact, log: seq<Event>) {
    && GoodRow(fact) && GoodLog(log)
    && fact == Materialised(fact.targetQuantity, fact.maxUnmatchedExposure, fact.compensationBudget, log)
  }

  lemma FreshIsConsistent(target: real, exposure: real, budget: real)
    requires GoodLimits(target, exposure, budget)
    ensures Consistent(NewFact(target, exposure, budget), [])
  {
  }

  lemma GoodLogExtends(log: seq<Event>, e: Event)
    requires GoodLog(log) && e.version == |log| + 1
    requires log != [] ==>
      var last := log[|log| - 1];
      last.kind == CompensationDecided && last.legAFilled <= e.legAFilled && last.legBFilled <= e.legBFilled
    ensures GoodLog(log + [e])
  {
    var log' := log + [e];
    forall i, j | 0 <= i < j < |log'|
      ensures log'[i].legAFilled <= log'[j].legAFilled && log'[i].legBFilled <= log'[j].legBFilled
    {
      if j == |log| && i < |log| - 1 {
        assert log[i].legAFilled <= log[|log| - 1].legAFilled;
      }
    }
  }

  lemma EvaluationKeepsRow(fact: Fact, f: Fills)
    requires GoodRow(fact) && Evaluated(fact, f).Ok?
    ensures GoodRow(Evaluated(fact, f).value.0)
  {
    hide Times;
    TimesSign(Abs(f.legA - f.legB), f.costPerUnit);
    TimesDistributes(f.exposurePerUnit, 0.0, 0.0);
    TimesDistributes(f.costPerUnit, 0.0, 0.0);
  }

  lemma EvaluationKeepsConsistent(fact: Fact, log: seq<Event>, f: Fills)
    requires Consistent(fact, log) && Evaluated(fact, f).Ok?
    ensures var e := Evaluated(fact, f).value; Consistent(e.0, log + [e.1])
  {
    hide Times, GoodRow, GoodLog, Decide;
    var e := Evaluated(fact, f).value;
    EvaluationKeepsRow(fact, f);
    GoodLogExtends(log, e.1);
    assert (log + [e.1])[..|log + [e.1]| - 1] == log;
    assert Costs(log + [e.1]) == Costs(log) + e.1.estimatedCost;
  }

  /** A call on one plan: an evaluation, or another initialisation under some limits. */
  datatype Call = EvaluateCall(fills: Fills) | InitializeCall(target: real, exposure: real, budget: real)

  /** A plan's row and log after a call; initialising an existing row leaves it alone. */
  function AfterCall(fact: Fact, log: seq<Event>, call: Call): (Fact, seq<Event>) {
    match call
    case InitializeCall(_, _, _) => (fact, log)
    case EvaluateCall(f) =>
      match Evaluated(fact, f)
      case Err(_) => (fact, log)
      case Ok(e) => (e.0, log + [e.1])
  }

  function AfterCalls(fact: Fact, log: seq<Event>, calls: seq<Call>): (Fact, seq<Event>)
    decreases |calls|
  {
    if calls == [] then (fact, log)
    else
      var next := AfterCall(fact, log, calls[0]);
      AfterCalls(next.0, next.1, calls[1..])
  }

  lemma {:induction false} CallsKeepConsistent(fact: Fact, log: seq<Event>, calls: seq<Call>)
    requires Consistent(fact, log)
    ensures var end := AfterCalls(fact, log, calls);
            && Consistent(end.0, end.1)
            && log <= end.1
            && end.0.legAFilled >= fact.legAFilled && end.0.legBFilled >= fact.legBFilled
            && end.0.compensationSpent >= fact.compensationSpent
            && (fact.state == Completed || fact.state == ManualRequired ==> end == (fact, log))
            && (end.0.targetQuantity, end.0.maxUnmatchedExposure, end.0.compensationBudget)
               == (fact.targetQuantity, fact.maxUnmatchedExposure, fact.compensationBudget)
    decreases |calls|
  {
    hide Times, GoodRow, GoodLog, Materialised;
    if calls != [] {
      var next := AfterCall(fact, log, calls[0]);
      if calls[0].EvaluateCall? && Evaluated(fact, calls[0].fills).Ok? {
        var f := calls[0].fills;
        EvaluationKeepsConsistent(fact, log, f);
        TimesSign(Abs(f.legA - f.legB), f.costPerUnit);
      }
      CallsKeepConsistent(next.0, next.1, calls[1..]);
    }
  }

  /** In every run of a plan, under any calls: the log is compensation decisions followed by at
      most one terminal event, it rebuilds the row, and spending is the sum of the estimated costs.
      The plan is escalated if and only if budget, exposure or target is broken, and an evaluated
      one completed if and only if none is and the legs match. A run cut anywhere only
      ever grows: its log is extended, fills and spending never fall, terminal rows stay. */
  lemma EveryRunStaysWithinLimits(target: real, exposure: real, budget: real, before: seq<Call>, after: seq<Call>)
    requires GoodLimits(target, exposure, budget)
    ensures var mid := AfterCalls(NewFact(target, exposure, budget), [], before);
            var end := AfterCalls(mid.0, mid.1, after);
            && end.0 == Materialised(target, exposure, budget, end.1)
            && end.0.compensationSpent == Costs(end.1)
            && (forall i | 0 <= i < |end.1| - 1 :: end.1[i].kind == CompensationDecided)
            && StateFits(end.0) && (end.0.state == Planned <==> end.1 == [])
            && mid.1 <= end.1
            && mid.0.legAFilled <= end.0.legAFilled && mid.0.legBFilled <= end.0.legBFilled
            && mid.0.compensationSpent <= end.0.compensationSpent
            && (mid.0.state == Completed || mid.0.state == ManualRequired ==> end == mid)
  {
    var start := NewFact(target, exposure, budget);
    FreshIsConsistent(target, exposure, budget);
    CallsKeepConsistent(start, [], before);
    var mid := AfterCalls(start, [], before);
    CallsKeepConsistent(mid.0, mid.1, after);
  }

  /** The quantity by which one leg is ahead, without a sign. */
  function Gap(a: real, b: real): real {
    if a >= b then a - b else b - a
  }

  /** One evaluation in any state of any run. One with good values is refused exactly when a limit
      is already broken, the legs already matched at an earlier evaluation, or a fill falls.
      Otherwise the row and its event hold the reported fills, their gap and the gap's exposure and
      cost; the cost is added to the spending; and the decision is to escalate exactly when the new
      row breaks a limit, else to compensate exactly when the legs differ. */
  lemma EvaluationMeans(target: real, exposure: real, budget: real, calls: seq<Call>, f: Fills)
    requires GoodLimits(target, exposure, budget) && GoodFills(f)
    ensures var (fact, log) := AfterCalls(NewFact(target, exposure, budget), [], calls);
            var refused := !WithinLimits(fact) || (log != [] && fact.legAFilled == fact.legBFilled)
                           || f.legA < fact.legAFilled || f.legB < fact.legBFilled;
            var gap := Gap(f.legA, f.legB);
            && (Evaluated(fact, f).Err? <==> refused)
            && (!refused ==>
                  var (row, event) := Evaluated(fact, f).value;
                  && (row.targetQuantity, row.maxUnmatchedExposure, row.compensationBudget) == (target, exposure, budget)
                  && (row.legAFilled, row.legBFilled, row.unmatchedQuantity) == (f.legA, f.legB, gap)
                  && row.unmatchedExposure == gap * f.exposurePerUnit
                  && row.compensationSpent == fact.compensationSpent + gap * f.costPerUnit
                  && row.lastVersion == |log| + 1
                  && StateFits(row)
                  && (Decide(fact, f) == Escalate <==> !WithinLimits(row))
                  && (Decide(fact, f) == PlanCompensation <==> WithinLimits(row) && f.legA != f.legB)
                  && event == Event(|log| + 1, event.kind, f.legA, f.legB, gap, gap * f.exposurePerUnit, gap * f.costPerUnit)
                  && (event.kind == ManualEscalated <==> !WithinLimits(row))
                  && (event.kind == CompletedEvent <==> WithinLimits(row) && f.legA == f.legB))
  {
    hide Times, WithinLimits, GoodLog, AfterCalls, Materialised, Decide;
    var start := NewFact(target, exposure, budget);
    FreshIsConsistent(target, exposure, budget);
    CallsKeepConsistent(start, [], calls);
    var (fact, log) := AfterCalls(start, [], calls);
    assert fact.lastVersion == |log| by { VersionIsLength(fact, log); }
    if Evaluated(fact, f).Ok? {
      EvaluationKeepsRow(fact, f);
      DecisionFits(fact, f);
      GapTimes(f);
    }
  }

  lemma VersionIsLength(fact: Fact, log: seq<Event>)
    requires Consistent(fact, log)
    ensures fact.lastVersion == |log|
  {
  }

  lemma GapTimes(f: Fills)
    ensures Abs(f.legA - f.legB) == Gap(f.legA, f.legB)
    ensures Times(Gap(f.legA, f.legB), f.exposurePerUnit) == Gap(f.legA, f.legB) * f.exposurePerUnit
    ensures Times(Gap(f.legA, f.legB), f.costPerUnit) == Gap(f.legA, f.legB) * f.costPerUnit
  {
  }

  lemma DecisionFits(fact: Fact, f: Fills)
    requires Evaluated(fact, f).Ok?
    ensures var row := Evaluated(fact, f).value.0;
            && (Decide(fact, f) == NoAction <==> row.state == Completed)
            && (Decide(fact, f) == PlanCompensation <==> row.state == CompensationPlanned)
            && (Decide(fact, f) == Escalate <==> row.state == ManualRequired)
  {
    hide Decide, Times;
  }

  /** The estimated cost of an evaluation that escalates is counted as spent, so spending may then
      exceed the budget. */
  lemma EscalationMayOverspend()
    ensures var end := AfterCalls(NewFact(1.0, 5.0, 1.0), [], [EvaluateCall(Fills(1.0, 0.0, 0.0, 2.0))]).0;
            end.state == ManualRequired && end.compensationSpent == 2.0 > end.compensationBudget
  {
    var f := Fills(1.0, 0.0, 0.0, 2.0);
    var fact := NewFact(1.0, 5.0, 1.0);
    assert Times(1.0, 0.0) == 0.0 && Times(1.0, 2.0) == 2.0;
    assert [EvaluateCall(f)][1..] == [];
    assert AfterCall(fact, [], EvaluateCall(f)).0 == Evaluated(fact, f).value.0;
  }
}
