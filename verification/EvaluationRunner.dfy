/** The evaluation runner of one experiment: asyncio tasks are slots that move between awaits, the
    semaphore bounds the executing ones, a crash loses everything but the store. */
module EvaluationRunner {
  import opened Common
  import opened EvaluationStore
  import TaskQueue

  /** One asyncio task. Skipped tasks left without a record; Raised ones carry a runner-level error;
      Cancelled ones ended in a cancellation their executor raised of itself. */
  datatype Phase = Waiting | Executing | Finished | Skipped | Raised | Cancelled

  datatype Slot = Slot(attempt: Attempt, phase: Phase)

  datatype Live = Live(run: nat, concurrency: nat, slots: seq<Slot>, counts: map<Status, nat>, stop: bool)

  /** The store, shared with runners of other experiments, and this experiment's runner if it lives. */
  datatype World = World(experiment: string, store: Evaluations, live: Option<Live>)

  datatype Config = Config(episodes: seq<Episode>, concurrency: nat)
  {
    /** The validator's check: episodes of one task in two modes must not run concurrently. */
    predicate SameTaskSerial() {
      concurrency > 1 ==>
        forall i, j | 0 <= i < j < |episodes| :: episodes[i].task == episodes[j].task ==> episodes[i].mode == episodes[j].mode
    }

    /** The validator's check and what it leaves to the caller: no task and mode is listed twice. */
    predicate Valid() {
      1 <= concurrency <= 4 && SameTaskSerial() && TaskQueue.Distinct(episodes)
    }
  }

  function NextNumber(latest: map<Episode, Attempt>, e: Episode): nat {
    if e in latest then latest[e].number + 1 else 1
  }

  function NewSlot(experiment: string, run: nat, latest: map<Episode, Attempt>, e: Episode, id: nat): Slot {
    Slot(Attempt(id, run, experiment, e, NextNumber(latest, e), Pending, None), Waiting)
  }

  function NewSlots(experiment: string, run: nat, latest: map<Episode, Attempt>, queue: seq<Episode>, ids: seq<nat>): seq<Slot>
    requires |ids| == |queue|
  {
    seq(|queue|, i requires 0 <= i < |queue| => NewSlot(experiment, run, latest, queue[i], ids[i]))
  }

  function CountOf(counts: map<Status, nat>, s: Status): nat {
    if s in counts then counts[s] else 0
  }

  function Counted(counts: map<Status, nat>, s: Status): map<Status, nat> {
    counts[s := CountOf(counts, s) + 1]
  }

  function ExecutingSlots(slots: seq<Slot>): set<nat> {
    set i: nat | i < |slots| && slots[i].phase == Executing
  }

  predicate AllDone(slots: seq<Slot>) {
    forall s <- slots :: s.phase != Waiting && s.phase != Executing
  }

  function Move(slots: seq<Slot>, i: nat, phase: Phase): seq<Slot>
    requires i < |slots|
  {
    slots[i := slots[i].(phase := phase)]
  }

  /** A task that got the semaphore: it leaves when the runner is stopping, and registers otherwise. */
  function Begin(v: Evaluations, live: Live, i: nat): (Evaluations, Live)
    requires i < |live.slots|
  {
    if live.stop then (v, live.(slots := Move(live.slots, i, Skipped)))
    else
      var registered := Register(v, live.slots[i].attempt);
      if registered.Err? then (v, live.(slots := Move(live.slots, i, Raised)))
      else
        var running := MarkRunning(registered.value, live.slots[i].attempt.id);
        if running.Err? then (registered.value, live.(slots := Move(live.slots, i, Raised)))
        else (running.value, live.(slots := Move(live.slots, i, Executing)))
  }

  /** How a call of the executor ends: with an outcome, or with an exception of one of the kinds that the
      runner tells apart. Whatever else is not an `Exception` is raised on like a state conflict. */
  datatype Reply = Gave(outcome: Outcome) | Threw | ThrewConflict | ThrewCancelled

  const BROKEN := Outcome(InfrastructureError, Some("executor_exception"), None)

  /** The call of the executor has ended. An exception becomes an infrastructure error, except for a state
      conflict, which is raised on, and a cancellation, which the run drops. */
  function Complete(v: Evaluations, live: Live, i: nat, reply: Reply): (Evaluations, Live)
    requires i < |live.slots|
  {
    match reply
    case ThrewConflict => (v, live.(slots := Move(live.slots, i, Raised)))
    case ThrewCancelled => (v, live.(slots := Move(live.slots, i, Cancelled)))
    case Threw => Record(v, live, i, BROKEN)
    case Gave(outcome) => Record(v, live, i, outcome)
  }

  function Record(v: Evaluations, live: Live, i: nat, o: Outcome): (Evaluations, Live)
    requires i < |live.slots|
  {
    var finished := Finish(v, live.slots[i].attempt.id, o);
    if finished.Err? then (v, live.(slots := Move(live.slots, i, Raised)))
    else (finished.value, live.(slots := Move(live.slots, i, Finished), counts := Counted(live.counts, o.status)))
  }

  const INTERRUPTED := Outcome(Interrupted, None, None)

  /** After the grace period: a task still under way is interrupted in the store, then cancelled. */
  function AbandonOne(v: Evaluations, live: Live, i: nat): (Evaluations, Live)
    requires i < |live.slots|
  {
    var phase := live.slots[i].phase;
    if phase != Waiting && phase != Executing then (v, live)
    else
      var finished := Finish(v, live.slots[i].attempt.id, INTERRUPTED);
      if finished.Err? then (v, live.(slots := Move(live.slots, i, Skipped)))
      else
        (finished.value, live.(slots := Move(live.slots, i, Finished), counts := Counted(live.counts, Interrupted)))
  }

  /** The abandoning loop, from slot `i` on. */
  function Abandon(v: Evaluations, live: Live, i: nat): (Evaluations, Live)
    decreases |live.slots| - i
  {
    if i >= |live.slots| then (v, live)
    else
      var (v', live') := AbandonOne(v, live, i);
      Abandon(v', live', i + 1)
  }

  datatype Event =
    | Launch(config: Config, run: nat, ids: seq<nat>, queue: seq<Episode>, latest: map<Episode, Attempt>,
        admitted: nat, stop: bool)
    | Acquire(i: nat)
    | Answer(i: nat, reply: Reply)
    | Stop
    | AbandonRest
    | Return
    | Crash
    | Others(store: Evaluations)

  /** What runners of other experiments may do to the store: this experiment's records and results stay,
      and nothing appears under an id this runner has drawn. */
  ghost predicate OthersOnly(w: World, v: Evaluations) {
    && (forall id <- w.store.attempts :: w.store.attempts[id].experiment == w.experiment ==>
          id in v.attempts && v.attempts[id] == w.store.attempts[id])
    && (forall id <- v.attempts :: v.attempts[id].experiment == w.experiment ==>
          id in w.store.attempts && w.store.attempts[id] == v.attempts[id])
    && (forall id <- v.attempts :: v.attempts[id].id == id)
    && (forall id <- v.attempts :: id in w.store.attempts
          || (w.live.Some? ==> forall s <- w.live.value.slots :: s.attempt.id != id))
    && (forall id <- v.attempts :: v.attempts[id].experiment == w.experiment ==>
          (id in v.results <==> id in w.store.results))
    && (forall id <- v.results :: id in v.attempts)
    && (forall id <- v.results :: id in w.store.results && v.attempts[id].experiment == w.experiment ==>
          v.results[id] == w.store.results[id])
  }

  ghost predicate Enabled(w: World, e: Event) {
    match e
    case Launch(config, run, ids, queue, latest, admitted, stop) =>
      && w.live.None?
      && config.Valid()
      && TaskQueue.IsQueue(config.episodes, CompletedTasks(w.store, w.experiment), queue)
      && IsUnfinished(w.store, w.experiment, latest)
      && |ids| == |queue| && admitted <= |queue| && (!stop ==> admitted == |queue|)
      && (forall i, j | 0 <= i < j < |ids| :: ids[i] != ids[j])
      && (forall id <- ids :: id !in w.store.attempts)
    case Acquire(i) =>
      && w.live.Some? && i < |w.live.value.slots| && w.live.value.slots[i].phase == Waiting
      && |ExecutingSlots(w.live.value.slots)| < w.live.value.concurrency
    case Answer(i, _) => w.live.Some? && i < |w.live.value.slots| && w.live.value.slots[i].phase == Executing
    case Stop => w.live.Some?
    case AbandonRest => w.live.Some? && w.live.value.stop
    case Return => w.live.Some? && AllDone(w.live.value.slots)
    case Crash => w.live.Some?
    case Others(v) => OthersOnly(w, v)
  }

  ghost function Next(w: World, e: Event): World
    requires Enabled(w, e)
  {
    match e
    case Launch(config, run, ids, queue, latest, admitted, stop) =>
      w.(live := Some(Live(run, config.concurrency,
        NewSlots(w.experiment, run, latest, queue, ids)[..admitted], map[], stop)))
    case Acquire(i) =>
      var (v, live) := Begin(w.store, w.live.value, i); w.(store := v, live := Some(live))
    case Answer(i, reply) =>
      var (v, live) := Complete(w.store, w.live.value, i, reply); w.(store := v, live := Some(live))
    case Stop => w.(live := Some(w.live.value.(stop := true)))
    case AbandonRest =>
      var (v, live) := Abandon(w.store, w.live.value, 0); w.(store := v, live := Some(live))
    case Return => w.(live := None)
    case Crash => w.(live := None)
    case Others(v) => w.(store := v)
  }

  /** `run` returns its summary without raising exactly when no task carries a runner-level error; it skips
      cancelled ones. */
  predicate ReturnsSummary(live: Live) {
    AllDone(live.slots) && forall s <- live.slots :: s.phase != Raised
  }

  function Start(experiment: string, v: Evaluations): World {
    World(experiment, v, None)
  }

  /** A history: any number of launches, stops, crashes and resumes over one store. */
  ghost predicate IsHistory(experiment: string, worlds: seq<World>, events: seq<Event>) {
    && |worlds| == |events| + 1
    && worlds[0] == Start(experiment, EMPTY)
    && forall i | 0 <= i < |events| :: Enabled(worlds[i], events[i]) && worlds[i + 1] == Next(worlds[i], events[i])
  }

  /** The runner's own loops and segments between awaits, over the shared store. */
  class EvaluationRunner {
    const store: InMemoryEvaluationStore
    const experiment: string
    const run: nat
    const concurrency: nat
    var slots: seq<Slot>
    var counts: map<Status, nat>
    var stop: bool

    function State(): Live
      reads this
    {
      Live(run, concurrency, slots, counts, stop)
    }

    constructor (store: InMemoryEvaluationStore, experiment: string, run: nat, concurrency: nat)
      ensures this.store == store && this.experiment == experiment
      ensures State() == Live(run, concurrency, [], map[], false)
    {
      this.store, this.experiment, this.run, this.concurrency := store, experiment, run, concurrency;
      slots, counts, stop := [], map[], false;
    }

    /** Creates the tasks of the queue in order until the runner is stopped, after `admitted` of them. */
    method Launch(queue: seq<Episode>, ids: seq<nat>, admitted: nat) returns (ghost latest: map<Episode, Attempt>)
      requires store.Keyed() && slots == []
      requires |ids| == |queue| && admitted <= |queue| && TaskQueue.Distinct(queue)
      modifies `slots
      ensures IsUnfinished(store.Contents(), experiment, latest)
      ensures slots == NewSlots(experiment, run, latest, queue, ids)[..admitted]
    {
      var unfinished := store.UnfinishedAttempts(experiment);
      latest := unfinished;
      var nextSequence := map e | e in unfinished :: unfinished[e].number + 1;
      var i := 0;
      while i < admitted
        invariant i <= admitted && |slots| == i
        invariant forall j | 0 <= j < i :: slots[j] == NewSlot(experiment, run, latest, queue[j], ids[j])
        invariant forall j | i <= j < |queue| ::
          (if queue[j] in nextSequence then nextSequence[queue[j]] else 1) == NextNumber(latest, queue[j])
      {
        var sequence := if queue[i] in nextSequence then nextSequence[queue[i]] else 1;
        nextSequence := nextSequence[queue[i] := sequence + 1];
        slots := slots + [Slot(Attempt(ids[i], run, experiment, queue[i], sequence, Pending, None), Waiting)];
        i := i + 1;
      }
    }

    /** A task holding the semaphore, up to its call of the executor. */
    method BeginTask(i: nat)
      requires i < |slots|
      modifies `slots, store`attempts
      ensures (store.Contents(), State()) == Begin(old(store.Contents()), old(State()), i)
    {
      var attempt := slots[i].attempt;
      if stop {
        slots := Move(slots, i, Skipped);
        return;
      }
      var registered := store.RegisterAttempt(attempt);
      if registered.Err? {
        slots := Move(slots, i, Raised);
        return;
      }
      var running := store.MarkAttemptRunning(attempt.id);
      slots := Move(slots, i, if running.Err? then Raised else Executing);
    }

    /** The same task once the call of the executor has ended. */
    method CompleteTask(i: nat, reply: Reply)
      requires i < |slots|
      modifies `slots, `counts, store`attempts, store`results
      ensures (store.Contents(), State()) == Complete(old(store.Contents()), old(State()), i, reply)
    {
      var o := BROKEN;
      match reply {
        case ThrewConflict =>
          slots := Move(slots, i, Raised);
          return;
        case ThrewCancelled =>
          slots := Move(slots, i, Cancelled);
          return;
        case Threw =>
        case Gave(outcome) =>
          o := outcome;
      }
      var finished := store.FinishAttempt(slots[i].attempt.id, o);
      if finished.Err? {
        slots := Move(slots, i, Raised);
        return;
      }
      counts := Counted(counts, o.status);
      slots := Move(slots, i, Finished);
    }

    /** Interrupts and cancels what is still under way after the grace period. */
    method MarkAbandoned()
      modifies `slots, `counts, store`attempts, store`results
      ensures (store.Contents(), State()) == Abandon(old(store.Contents()), old(State()), 0)
    {
      ghost var v, live := store.Contents(), State();
      var i := 0;
      while i < |slots|
        invariant i <= |slots|
        invariant Abandon(store.Contents(), State(), i) == Abandon(v, live, 0)
      {
        ghost var v1, live1 := store.Contents(), State();
        if slots[i].phase == Waiting || slots[i].phase == Executing {
          var finished := store.FinishAttempt(slots[i].attempt.id, INTERRUPTED);
          if finished.Ok? {
            counts := Counted(counts, Interrupted);
            slots := Move(slots, i, Finished);
          } else {
            slots := Move(slots, i, Skipped);
          }
        }
        assert (store.Contents(), State()) == AbandonOne(v1, live1, i);
        i := i + 1;
      }
    }
  }
}
