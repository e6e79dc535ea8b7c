/** The latest-wins hand-off between the observer and the simulation worker
    (crates/core/src/simulation.rs): a locked slot, a skip counter and a stored wake-up. */
module Engine {
  import opened Common

  /** An observation offered for simulation; its content plays no part in the hand-off. */
  datatype DecisionEvent = DecisionEvent(evaluatedAtMs: nat, content: string)

  /** How far the offer that holds the slot's lock has come. */
  datatype Lock = Free | Entered(offer: DecisionEvent) | Counted(offer: DecisionEvent) | Stored

  /** Where the worker is in its loop. */
  datatype Worker =
    | Top
    | WantSlot
    | FoundNone
    | Parked
    | Took(event: DecisionEvent)
    | Running(event: DecisionEvent, skips: nat)
    | Exited

  /** The shared state, and what has happened so far: every event stored in the slot, how many
      were overwritten, which were taken, and the skip counts handed to runs. */
  datatype State = State(
    slot: Option<DecisionEvent>,
    permit: bool,
    stopped: bool,
    skipped: nat,
    lock: Lock,
    worker: Worker,
    stored: seq<DecisionEvent>,
    overwritten: nat,
    taken: seq<DecisionEvent>,
    takenAt: seq<nat>,
    handed: seq<nat>)

  datatype Step =
    | OfferEnters(offer: DecisionEvent)
    | OfferCounts
    | OfferStores
    | OfferNotifies
    | WorkerSteps
    | StopIsSet
    | StopNotifies
    | WorkerAborted

  function Start(): State {
    State(None, false, false, 0, Free, Top, [], 0, [], [], [])
  }

  predicate WorkerCanStep(s: State) {
    match s.worker
    case WantSlot => s.lock.Free?
    case Parked => s.permit
    case Exited => false
    case _ => true
  }

  predicate Enabled(s: State, step: Step) {
    match step
    case OfferEnters(_) => s.lock.Free?
    case OfferCounts => s.lock.Entered?
    case OfferStores => s.lock.Counted?
    case OfferNotifies => s.lock.Stored?
    case WorkerSteps => WorkerCanStep(s)
    case StopIsSet => true
    case StopNotifies => s.stopped
    // A task is cancelled only where it awaits: the lock, the wake-up, or inside a run.
    case WorkerAborted => s.worker.WantSlot? || s.worker.Parked? || s.worker.Running?
  }

  function WorkerNext(s: State): State
    requires WorkerCanStep(s)
  {
    match s.worker
    case Top => s.(worker := if s.stopped then Exited else WantSlot)
    case WantSlot =>
      if s.slot.Some? then
        s.(slot := None, worker := Took(s.slot.value), taken := s.taken + [s.slot.value],
           takenAt := s.takenAt + [if s.stored == [] then 0 else |s.stored| - 1])
      else s.(worker := FoundNone)
    case FoundNone => s.(worker := if s.stopped then Exited else Parked)
    case Parked => s.(permit := false, worker := Top)
    case Took(event) => s.(skipped := 0, worker := Running(event, s.skipped), handed := s.handed + [s.skipped])
    case Running(_, _) => s.(worker := Top)
  }

  function Next(s: State, step: Step): State
    requires Enabled(s, step)
  {
    match step
    case OfferEnters(e) => s.(lock := Entered(e))
    case OfferCounts =>
      var full := if s.slot.Some? then 1 else 0;
      s.(lock := Counted(s.lock.offer), skipped := s.skipped + full, overwritten := s.overwritten + full)
    case OfferStores => s.(lock := Stored, slot := Some(s.lock.offer), stored := s.stored + [s.lock.offer])
    case OfferNotifies => s.(lock := Free, permit := true)
    case WorkerSteps => WorkerNext(s)
    case StopIsSet => s.(stopped := true)
    case StopNotifies => s.(permit := true)
    case WorkerAborted => s.(worker := Exited)
  }

  function Run(s: State, steps: seq<Step>): Option<State>
    decreases |steps|
  {
    if steps == [] then Some(s)
    else if !Enabled(s, steps[0]) then None
    else Run(Next(s, steps[0]), steps[1..])
  }

  function Total(counts: seq<nat>): nat {
    if counts == [] then 0 else Total(counts[..|counts| - 1]) + counts[|counts| - 1]
  }

  /** Nothing offered is lost from the books. */
  predicate Conserved(s: State) {
    var full := if s.slot.Some? then 1 else 0;
    // An overwrite is counted one step before the old event leaves the slot.
    && |s.stored| + (if s.lock.Counted? then full else 0) == |s.taken| + s.overwritten + full
    && s.overwritten == s.skipped + Total(s.handed)
    && |s.handed| + (if s.worker.Took? then 1 else 0) == |s.taken|
  }

  /** The slot holds the latest event; the taken ones are an in-order selection of the stored. */
  predicate Ordered(slot: Option<DecisionEvent>, stored: seq<DecisionEvent>, taken: seq<DecisionEvent>, takenAt: seq<nat>) {
    && |takenAt| == |taken|
    && (forall k | 0 <= k < |taken| :: takenAt[k] < |stored| && taken[k] == stored[takenAt[k]])
    && (forall j, k | 0 <= j < k < |taken| :: takenAt[j] < takenAt[k])
    && (slot.Some? ==> stored != [] && slot.value == stored[|stored| - 1])
    && (slot.Some? && taken != [] ==> takenAt[|taken| - 1] < |stored| - 1)
  }

  predicate LatestWins(s: State) {
    Ordered(s.slot, s.stored, s.taken, s.takenAt)
  }

  /** A worker that found nothing and a full slot always come with a wake-up, stored or imminent. */
  predicate NoLostWakeUp(s: State) {
    (s.worker.FoundNone? || s.worker.Parked?) && s.slot.Some? ==> s.permit || s.lock.Stored?
  }

  predicate Inv(s: State) {
    Conserved(s) && LatestWins(s) && NoLostWakeUp(s)
  }

  lemma StepConserves(s: State, step: Step)
    requires Conserved(s) && Enabled(s, step)
    ensures Conserved(Next(s, step))
  {
    if step.WorkerSteps? {
      WorkerConserves(s);
    } else {
      hide Total;
    }
  }

  lemma WorkerConserves(s: State)
    requires Conserved(s) && WorkerCanStep(s)
    ensures Conserved(WorkerNext(s))
  {
    TotalExtends(s.handed, s.skipped);
    hide Total;
  }

  lemma TotalExtends(counts: seq<nat>, n: nat)
    ensures Total(counts + [n]) == Total(counts) + n
  {
    assert (counts + [n])[..|counts|] == counts;
  }

  lemma StoringKeepsOrder(slot: Option<DecisionEvent>, stored: seq<DecisionEvent>, taken: seq<DecisionEvent>, takenAt: seq<nat>,
                          e: DecisionEvent)
    requires Ordered(slot, stored, taken, takenAt)
    ensures Ordered(Some(e), stored + [e], taken, takenAt)
  {
  }

  lemma TakingKeepsOrder(stored: seq<DecisionEvent>, taken: seq<DecisionEvent>, takenAt: seq<nat>, e: DecisionEvent)
    requires Ordered(Some(e), stored, taken, takenAt)
    ensures Ordered(None, stored, taken + [e], takenAt + [|stored| - 1])
  {
    var at := takenAt + [|stored| - 1];
    forall j, k | 0 <= j < k < |at| ensures at[j] < at[k] {
      if k == |taken| {
        assert j == |taken| - 1 || takenAt[j] < takenAt[|taken| - 1];
      }
    }
  }

  lemma FullSlotWasStored(s: State)
    requires LatestWins(s) && s.slot.Some?
    ensures s.stored != []
  {
  }

  lemma StepKeepsLatest(s: State, step: Step)
    requires LatestWins(s) && Enabled(s, step)
    ensures LatestWins(Next(s, step))
  {
    hide Ordered;
    if step.OfferStores? {
      StoringKeepsOrder(s.slot, s.stored, s.taken, s.takenAt, s.lock.offer);
    } else if step.WorkerSteps? && s.worker.WantSlot? && s.slot.Some? {
      FullSlotWasStored(s);
      TakingKeepsOrder(s.stored, s.taken, s.takenAt, s.slot.value);
    }
  }

  lemma StepKeepsWakeUp(s: State, step: Step)
    requires NoLostWakeUp(s) && Enabled(s, step)
    ensures NoLostWakeUp(Next(s, step))
  {
  }

  lemma StepKeepsInv(s: State, step: Step)
    requires Inv(s) && Enabled(s, step)
    ensures Inv(Next(s, step))
  {
    hide Conserved, LatestWins, NoLostWakeUp, Next;
    StepConserves(s, step);
    StepKeepsLatest(s, step);
    StepKeepsWakeUp(s, step);
  }

  lemma {:induction false} RunKeepsInv(s: State, steps: seq<Step>)
    requires Inv(s) && Run(s, steps).Some?
    ensures Inv(Run(s, steps).value)
    decreases |steps|
  {
    hide Inv, Next;
    if steps != [] {
      StepKeepsInv(s, steps[0]);
      RunKeepsInv(Next(s, steps[0]), steps[1..]);
    }
  }

  /** In every interleaving of offers, worker and shutdown: between offers, every stored event
      was taken, overwritten or is in the slot; every overwrite is in the counter or was handed
      to exactly one run; taken events follow the order of offers; and a parked worker facing a
      full slot has a wake-up. */
  lemma EveryInterleavingIsAccounted(steps: seq<Step>)
    requires Run(Start(), steps).Some?
    ensures var s := Run(Start(), steps).value;
            && (s.lock.Free? ==> |s.stored| == |s.taken| + s.overwritten + (if s.slot.Some? then 1 else 0))
            && s.overwritten == s.skipped + Total(s.handed)
            && LatestWins(s)
            && (s.worker.Parked? && s.slot.Some? && s.lock.Free? ==> s.permit)
  {
    StartIsGood();
    hide Inv, Run;
    RunKeepsInv(Start(), steps);
    InvMeans(Run(Start(), steps).value);
  }

  lemma InvMeans(s: State)
    requires Inv(s)
    ensures s.lock.Free? ==> |s.stored| == |s.taken| + s.overwritten + (if s.slot.Some? then 1 else 0)
    ensures s.overwritten == s.skipped + Total(s.handed) && LatestWins(s)
    ensures s.worker.Parked? && s.slot.Some? && s.lock.Free? ==> s.permit
  {
    hide LatestWins, Total;
  }

  lemma StartIsGood()
    ensures Inv(Start())
  {
  }

  /** The worker alone, for a number of steps. */
  function WorkerRun(s: State, n: nat): Option<State>
    decreases n
  {
    if n == 0 then Some(s) else if !WorkerCanStep(s) then None else WorkerRun(WorkerNext(s), n - 1)
  }

  /** How many of its own steps the worker is away from taking an event. */
  function StepsToTake(w: Worker): nat {
    match w
    case WantSlot => 1
    case Top => 2
    case Running(_, _) => 3
    case Took(_) => 4
    case Parked => 3
    case FoundNone => 4
    case Exited => 0
  }

  /** From any reachable moment with a full slot and no offer in progress, an engine that is not
      being stopped takes the latest event within four steps of its worker. */
  lemma FullSlotIsTaken(steps: seq<Step>)
    requires Run(Start(), steps).Some?
    requires var s := Run(Start(), steps).value; s.slot.Some? && s.lock.Free? && !s.stopped && !s.worker.Exited?
    ensures var s := Run(Start(), steps).value;
            var n := StepsToTake(s.worker);
            && 1 <= n <= 4 && WorkerRun(s, n).Some?
            && var s' := WorkerRun(s, n).value;
               && s'.slot.None? && s.stored != []
               && s'.taken == s.taken + [s.stored[|s.stored| - 1]]
               && s'.worker == Took(s.stored[|s.stored| - 1])
  {
    hide Inv, WorkerRun;
    StartIsGood();
    RunKeepsInv(Start(), steps);
    var s := Run(Start(), steps).value;
    InvOfFullSlot(s);
    WorkerReachesSlot(s);
  }

  lemma InvOfFullSlot(s: State)
    requires Inv(s) && s.slot.Some?
    ensures NoLostWakeUp(s) && s.stored != [] && s.slot.value == s.stored[|s.stored| - 1]
  {
  }

  lemma WorkerReachesSlot(s: State)
    requires NoLostWakeUp(s) && s.slot.Some? && s.lock.Free? && !s.stopped && !s.worker.Exited?
    ensures var n := StepsToTake(s.worker);
            && 1 <= n <= 4 && WorkerRun(s, n).Some?
            && var s' := WorkerRun(s, n).value;
               s'.slot.None? && s'.taken == s.taken + [s.slot.value] && s'.worker == Took(s.slot.value)
    decreases StepsToTake(s.worker)
  {
    if s.worker.WantSlot? {
      assert WorkerRun(WorkerNext(s), 0) == Some(WorkerNext(s));
    } else {
      var next := WorkerNext(s);
      assert StepsToTake(next.worker) == StepsToTake(s.worker) - 1;
      assert next.slot == s.slot && next.taken == s.taken && next.lock == s.lock && next.stopped == s.stopped;
      WorkerReachesSlot(next);
    }
  }

  // ---------------------------------------------------------------- offers and shutdown

  /** The events offered by a schedule, in the order in which they got the slot's lock. */
  function Offered(steps: seq<Step>): seq<DecisionEvent> {
    if steps == [] then []
    else Offered(steps[..|steps| - 1]) + (if steps[|steps| - 1].OfferEnters? then [steps[|steps| - 1].offer] else [])
  }

  /** The event of the offer in progress that is not in the slot yet. */
  function InHand(lock: Lock): seq<DecisionEvent> {
    match lock
    case Entered(e) => [e]
    case Counted(e) => [e]
    case _ => []
  }

  lemma {:induction false} RunAppends(s: State, steps: seq<Step>, last: Step)
    ensures Run(s, steps + [last]) ==
            if Run(s, steps).Some? && Enabled(Run(s, steps).value, last) then Some(Next(Run(s, steps).value, last)) else None
    decreases |steps|
  {
    hide Next, Enabled;
    if steps == [] {
      assert (steps + [last])[1..] == [];
    } else {
      assert (steps + [last])[1..] == steps[1..] + [last];
      if Enabled(s, steps[0]) {
        RunAppends(Next(s, steps[0]), steps[1..], last);
      }
    }
  }

  lemma NothingInHand()
    ensures InHand(Start().lock) == []
  {
  }

  lemma StepMovesOffers(s: State, step: Step)
    requires Enabled(s, step)
    ensures var s' := Next(s, step);
            s'.stored + InHand(s'.lock) == s.stored + InHand(s.lock) + (if step.OfferEnters? then [step.offer] else [])
  {
  }

  /** No offer is refused or lost on its way: what was stored, with the event in hand, is exactly
      what was offered, in the order of the offers. */
  lemma {:induction false} OffersAreStored(steps: seq<Step>)
    requires Run(Start(), steps).Some?
    ensures var s := Run(Start(), steps).value;
            s.stored + InHand(s.lock) == Offered(steps)
    decreases |steps|
  {
    hide Next, Enabled, InHand;
    if steps == [] {
      assert Start().stored + InHand(Start().lock) == [] by { NothingInHand(); }
    } else {
      var init, last := steps[..|steps| - 1], steps[|steps| - 1];
      assert init + [last] == steps;
      RunAppends(Start(), init, last);
      hide Run;
      OffersAreStored(init);
      StepMovesOffers(Run(Start(), init).value, last);
    }
  }

  /** How many of its own steps a stopped worker is away from its exit. */
  function StepsToExit(w: Worker): nat {
    match w
    case Top => 1
    case FoundNone => 1
    case Parked => 2
    case Running(_, _) => 2
    case Took(_) => 3
    case WantSlot => 4
    case Exited => 0
  }

  /** After a stop with its wake-up, when no offer is in progress, the worker exits within four of
      its own steps; it starts another run only if it was already at the slot or had an event. */
  lemma StoppedWorkerExits(s: State)
    requires s.stopped && s.lock.Free? && (s.worker.Parked? ==> s.permit)
    ensures exists n | 0 <= n <= StepsToExit(s.worker) ::
              && WorkerRun(s, n).Some? && WorkerRun(s, n).value.worker.Exited?
              && |WorkerRun(s, n).value.handed| <= |s.handed| + (if s.worker.WantSlot? || s.worker.Took? then 1 else 0)
    decreases StepsToExit(s.worker)
  {
    if s.worker.Exited? {
      assert WorkerRun(s, 0) == Some(s);
    } else {
      var next := WorkerNext(s);
      StoppedWorkerExits(next);
      var n :| 0 <= n <= StepsToExit(next.worker) && WorkerRun(next, n).Some? && WorkerRun(next, n).value.worker.Exited?
               && |WorkerRun(next, n).value.handed| <= |next.handed| + (if next.worker.WantSlot? || next.worker.Took? then 1 else 0);
      assert WorkerRun(s, n + 1) == WorkerRun(next, n);
    }
  }
}
