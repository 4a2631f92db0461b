/** What the store holds of an attempt, told from how its executor ended. */
module RunnerOutcomes {
  import opened Common
  import opened EvaluationStore
  import opened EvaluationRunner
  import opened RunnerInvariants
  import opened RunnerSafety
  import opened RunnerTheorems
  import opened RunnerSummaries
  import TaskQueue

  // ---- the outcome an event records ----

  /** An outcome that the store takes is recorded as given, and an exception as an infrastructure error; a state
      conflict, a cancellation and an outcome the store refuses record nothing. */
  function OutcomeOf(reply: Reply): Option<Outcome> {
    match reply
    case Gave(o) => if Storable(o) then Some(o) else None
    case Threw => Some(Outcome(InfrastructureError, Some("executor_exception"), None))
    case ThrewConflict => None
    case ThrewCancelled => None
  }

  /** Slot `i` of the live run holds the attempt. */
  predicate Holds(w: World, i: nat, id: nat) {
    w.live.Some? && i < |w.live.value.slots| && w.live.value.slots[i].attempt.id == id
  }

  predicate ExecutesIn(w: World, id: nat) {
    w.live.Some? && exists s <- w.live.value.slots :: s.attempt.id == id && s.phase == Executing
  }

  /** What an event records for the attempt: its executor's outcome, or the interruption of an executing one. */
  function RecordedBy(w: World, e: Event, id: nat): Option<Outcome> {
    if e.Answer? && Holds(w, e.i, id) then OutcomeOf(e.reply)
    else if e.AbandonRest? && ExecutesIn(w, id) then Some(Outcome(Interrupted, None, None))
    else None
  }

  function OneOf(later: Option<Outcome>, earlier: Option<Outcome>): Option<Outcome> {
    if later.Some? then later else earlier
  }

  /** What was recorded last before world `k`. */
  function Recorded(worlds: seq<World>, events: seq<Event>, k: nat, id: nat): Option<Outcome>
    requires |worlds| == |events| + 1 && k < |worlds|
  {
    if k == 0 then None
    else
      OneOf(RecordedBy(worlds[k - 1], events[k - 1], id), Recorded(worlds, events, k - 1, id))
  }

  /** An attempt of the experiment is as recorded, and running while nothing was. */
  predicate Told(x: string, v: Evaluations, id: nat, recorded: Option<Outcome>) {
    if id in v.attempts && v.attempts[id].experiment == x then
      match recorded
      case None => v.attempts[id].status == Running && v.attempts[id].errorClass.None? && id !in v.results
      case Some(o) =>
        && v.attempts[id].status == o.status && v.attempts[id].errorClass == o.errorClass
        && (id in v.results <==> o.result.Some?) && (o.result.Some? ==> id in v.results && v.results[id] == o.result.value)
    else recorded.None?
  }

  // ---- one event ----

  lemma BeginTells(x: string, v: Evaluations, live: Live, i: nat, id: nat, recorded: Option<Outcome>)
    requires RecordsInv(x, v) && LiveInv(x, v, live) && i < |live.slots| && live.slots[i].phase == Waiting
    requires Told(x, v, id, recorded)
    ensures Told(x, Begin(v, live, i).0, id, recorded)
  {
    hide CountsInv, SerialSlots, DistinctSlots, NextUp, IsLast, ExecutingSlots, Register, NoGap, NoRepeat, TerminalLast;
    assert SlotInv(x, v, live.slots[i]);
    BeginFiles(v, live, i);
    hide Begin;
  }

  lemma FinishTells(x: string, v: Evaluations, live: Live, i: nat, o: Outcome, id: nat, recorded: Option<Outcome>)
    requires LiveInv(x, v, live) && i < |live.slots| && live.slots[i].phase == Executing
    requires Told(x, v, id, recorded)
    ensures Finish(v, live.slots[i].attempt.id, o).Ok? <==> Storable(o)
    ensures Storable(o) ==>
      Told(x, Finish(v, live.slots[i].attempt.id, o).value, id, if id == live.slots[i].attempt.id then Some(o) else recorded)
  {
    hide CountsInv, SerialSlots, DistinctSlots, NextUp, IsLast, ExecutingSlots;
    assert SlotInv(x, v, live.slots[i]);
  }

  lemma CompleteTells(x: string, v: Evaluations, live: Live, i: nat, reply: Reply, id: nat, recorded: Option<Outcome>)
    requires LiveInv(x, v, live) && i < |live.slots| && live.slots[i].phase == Executing
    requires Told(x, v, id, recorded)
    ensures Told(x, Complete(v, live, i, reply).0, id,
      if id == live.slots[i].attempt.id then OneOf(OutcomeOf(reply), recorded) else recorded)
  {
    hide LiveInv, Told, Finish, Storable;
    match reply {
      case Gave(o) => FinishTells(x, v, live, i, o, id, recorded);
      case Threw =>
        var o := Outcome(InfrastructureError, Some("executor_exception"), None);
        assert Storable(o) by {
          assert o.result.None? && o.status != Succeeded;
          InfrastructureIsStorable();
        }
        FinishTells(x, v, live, i, o, id, recorded);
      case _ =>
    }
  }

  lemma InfrastructureIsStorable()
    ensures Storable(Outcome(InfrastructureError, Some("executor_exception"), None))
    ensures Storable(Outcome(Interrupted, None, None))
  {
  }

  predicate ExecutingFrom(live: Live, i: nat, id: nat) {
    exists k | i <= k < |live.slots| :: live.slots[k].attempt.id == id && live.slots[k].phase == Executing
  }

  lemma AbandonOneTells(x: string, v: Evaluations, live: Live, i: nat, id: nat, recorded: Option<Outcome>)
    requires LiveInv(x, v, live) && i < |live.slots| && Told(x, v, id, recorded)
    ensures Told(x, AbandonOne(v, live, i).0, id,
      if live.slots[i].attempt.id == id && live.slots[i].phase == Executing then Some(Outcome(Interrupted, None, None)) else recorded)
  {
    InfrastructureIsStorable();
    if live.slots[i].phase == Executing {
      FinishTells(x, v, live, i, INTERRUPTED, id, recorded);
      hide Told, Finish, LiveInv;
    } else {
      hide CountsInv, SerialSlots, DistinctSlots, NextUp, IsLast, ExecutingSlots, Told;
      assert SlotInv(x, v, live.slots[i]);
    }
  }

  /** Abandoning slot `i` leaves the later slots as they are, and none of them holds its attempt. */
  lemma AbandonOneLeavesLater(v: Evaluations, live: Live, i: nat, id: nat)
    requires DistinctSlots(live.slots) && i < |live.slots|
    ensures var live' := AbandonOne(v, live, i).1;
      |live'.slots| == |live.slots| && (ExecutingFrom(live', i + 1, id) <==> ExecutingFrom(live, i + 1, id))
    ensures ExecutingFrom(live, i, id) <==>
      (live.slots[i].attempt.id == id && live.slots[i].phase == Executing) || ExecutingFrom(live, i + 1, id)
    ensures live.slots[i].attempt.id == id ==> !ExecutingFrom(live, i + 1, id)
  {
    hide Finish;
    var live' := AbandonOne(v, live, i).1;
    assert forall k | i < k < |live.slots| :: live'.slots[k] == live.slots[k];
    if ExecutingFrom(live, i + 1, id) {
      var k :| i + 1 <= k < |live.slots| && live.slots[k].attempt.id == id && live.slots[k].phase == Executing;
      assert live'.slots[k].attempt.id == id;
    }
  }

  lemma {:induction false} AbandonTells(x: string, v: Evaluations, live: Live, i: nat, id: nat, recorded: Option<Outcome>)
    requires RecordsInv(x, v) && LiveInv(x, v, live) && Told(x, v, id, recorded)
    ensures Told(x, Abandon(v, live, i).0, id,
      if ExecutingFrom(live, i, id) then Some(Outcome(Interrupted, None, None)) else recorded)
    decreases |live.slots| - i
  {
    hide RecordsInv, AbandonOne, Told;
    if i < |live.slots| {
      var (v', live') := AbandonOne(v, live, i);
      AbandonOneKeeps(x, v, live, i);
      AbandonOneTells(x, v, live, i, id, recorded);
      AbandonOneLeavesLater(v, live, i, id);
      hide LiveInv, ExecutingFrom;
      var next := if live.slots[i].attempt.id == id && live.slots[i].phase == Executing
        then Some(Outcome(Interrupted, None, None)) else recorded;
      AbandonTells(x, v', live', i + 1, id, next);
    }
  }

  lemma OthersTell(w: World, v': Evaluations, id: nat, recorded: Option<Outcome>)
    requires OthersOnly(w, v') && RecordsInv(w.experiment, w.store) && Told(w.experiment, w.store, id, recorded)
    ensures Told(w.experiment, v', id, recorded)
  {
    hide NoGap, NoRepeat, TerminalLast;
  }

  lemma StepTells(w: World, e: Event, id: nat, recorded: Option<Outcome>)
    requires WorldInv(w) && Enabled(w, e) && Told(w.experiment, w.store, id, recorded)
    ensures Told(w.experiment, Next(w, e).store, id, OneOf(RecordedBy(w, e, id), recorded))
  {
    hide RecordsInv, LiveInv, Begin, Complete, Abandon, OthersOnly, ExecutingSlots, Told, IsUnfinished, TaskQueue.IsQueue;
    if e.Acquire? {
      BeginTells(w.experiment, w.store, w.live.value, e.i, id, recorded);
    } else if e.Answer? {
      CompleteTells(w.experiment, w.store, w.live.value, e.i, e.reply, id, recorded);
    } else if e.AbandonRest? {
      AbandonTells(w.experiment, w.store, w.live.value, 0, id, recorded);
      ExecutingSomewhere(w, id);
    } else if e.Others? {
      OthersTell(w, e.store, id, recorded);
    }
  }

  lemma ExecutingSomewhere(w: World, id: nat)
    requires w.live.Some?
    ensures ExecutingFrom(w.live.value, 0, id) <==> ExecutesIn(w, id)
  {
  }

  /** In every world of every history the store holds of an attempt what was recorded of its executor's end: its
      status, error class and result, and nothing while nothing was recorded. */
  lemma {:induction false} AttemptsAreTold(x: string, worlds: seq<World>, events: seq<Event>, k: nat, id: nat)
    requires IsHistory(x, worlds, events) && k < |worlds|
    ensures Told(x, worlds[k].store, id, Recorded(worlds, events, k, id))
  {
    hide WorldInv, Enabled, Next, RecordedBy;
    if k > 0 {
      hide Told;
      AttemptsAreTold(x, worlds, events, k - 1, id);
      HistoryInv(x, worlds, events, k - 1);
      StepTells(worlds[k - 1], events[k - 1], id, Recorded(worlds, events, k - 1, id));
    }
  }

  // ---- who succeeds and who fails ----

  /** At event `m` the executor of the attempt gave this outcome and the store took it. */
  predicate GaveAt(worlds: seq<World>, events: seq<Event>, m: nat, id: nat, o: Outcome) {
    && m < |events| && |worlds| == |events| + 1 && events[m].Answer? && Holds(worlds[m], events[m].i, id)
    && events[m].reply == Gave(o) && Storable(o)
  }

  lemma {:induction false} RecordedWasGiven(worlds: seq<World>, events: seq<Event>, k: nat, id: nat) returns (m: nat)
    requires |worlds| == |events| + 1 && k < |worlds|
    requires var r := Recorded(worlds, events, k, id); r.Some? && (r.value.status == Succeeded || r.value.status == Failed)
    ensures m < k && GaveAt(worlds, events, m, id, Recorded(worlds, events, k, id).value)
  {
    if RecordedBy(worlds[k - 1], events[k - 1], id).Some? {
      m := k - 1;
    } else {
      m := RecordedWasGiven(worlds, events, k - 1, id);
    }
  }

  lemma GivenIsRecorded(x: string, worlds: seq<World>, events: seq<Event>, m: nat, id: nat, o: Outcome)
    requires IsHistory(x, worlds, events) && GaveAt(worlds, events, m, id, o)
    ensures Recorded(worlds, events, m + 1, id) == Some(o)
    ensures id in worlds[m + 1].store.attempts && worlds[m + 1].store.attempts[id].experiment == x
    ensures worlds[m + 1].store.attempts[id].status == o.status
  {
    hide IsHistory;
    AttemptsAreTold(x, worlds, events, m + 1, id);
  }

  /** An attempt is succeeded or failed if and only if its executor gave an outcome of that status that the store
      took, and then its error class and its result are those of that outcome. */
  lemma TerminalExactly(x: string, worlds: seq<World>, events: seq<Event>, k: nat, id: nat, s: Status)
    requires IsHistory(x, worlds, events) && k < |worlds| && (s == Succeeded || s == Failed)
    ensures var v := worlds[k].store;
      && (id in v.attempts && v.attempts[id].experiment == x && v.attempts[id].status == s <==>
           exists m: nat, o :: m < k && GaveAt(worlds, events, m, id, o) && o.status == s)
      && (forall m: nat, o | m < k && GaveAt(worlds, events, m, id, o) && o.status == s ::
           && v.attempts[id].errorClass == o.errorClass
           && (id in v.results <==> o.result.Some?) && (o.result.Some? ==> id in v.results && v.results[id] == o.result.value))
  {
    var v := worlds[k].store;
    AttemptsAreTold(x, worlds, events, k, id);
    if id in v.attempts && v.attempts[id].experiment == x && v.attempts[id].status == s {
      var m := RecordedWasGiven(worlds, events, k, id);
    }
    forall m: nat, o | m < k && GaveAt(worlds, events, m, id, o) && o.status == s
      ensures id in v.attempts && v.attempts[id].experiment == x && v.attempts[id].status == s
      ensures v.attempts[id].errorClass == o.errorClass
      ensures (id in v.results <==> o.result.Some?) && (o.result.Some? ==> id in v.results && v.results[id] == o.result.value)
    {
      GivenStays(x, worlds, events, m, k, id, o);
    }
  }

  /** Nothing is recorded of an attempt that is succeeded or failed. */
  lemma NothingMoreRecorded(w: World, e: Event, id: nat)
    requires WorldInv(w) && Enabled(w, e) && id in w.store.attempts
    requires w.store.attempts[id].status == Succeeded || w.store.attempts[id].status == Failed
    ensures RecordedBy(w, e, id).None?
  {
    hide RecordsInv;
    if w.live.Some? {
      var live := w.live.value;
      assert LiveInv(w.experiment, w.store, live);
      hide CountsInv, SerialSlots, DistinctSlots, NextUp, IsLast, ExecutingSlots, OthersOnly;
      forall i | 0 <= i < |live.slots| && live.slots[i].attempt.id == id
        ensures live.slots[i].phase != Executing
      {
        assert SlotInv(w.experiment, w.store, live.slots[i]);
      }
    }
  }

  lemma {:induction false} GivenStays(x: string, worlds: seq<World>, events: seq<Event>, m: nat, k: nat, id: nat, o: Outcome)
    requires IsHistory(x, worlds, events) && m < k < |worlds| && GaveAt(worlds, events, m, id, o)
    requires o.status == Succeeded || o.status == Failed
    ensures Recorded(worlds, events, k, id) == Some(o)
    ensures var v := worlds[k].store;
      && id in v.attempts && v.attempts[id].experiment == x && v.attempts[id].status == o.status
      && v.attempts[id].errorClass == o.errorClass
      && (id in v.results <==> o.result.Some?) && (o.result.Some? ==> id in v.results && v.results[id] == o.result.value)
    decreases k
  {
    hide WorldInv, Enabled, Next, RecordedBy, GaveAt;
    if k == m + 1 {
      GivenIsRecorded(x, worlds, events, m, id, o);
    } else {
      GivenStays(x, worlds, events, m, k - 1, id, o);
      HistoryInv(x, worlds, events, k - 1);
      NothingMoreRecorded(worlds[k - 1], events[k - 1], id);
      HistoryRecovers(x, worlds, events, k - 1, k);
      assert id in worlds[k].store.attempts && worlds[k].store.attempts[id] == worlds[k - 1].store.attempts[id] by {
        TerminalStays(x, worlds[k - 1].store, worlds[k].store, id);
      }
    }
    hide IsHistory;
    AttemptsAreTold(x, worlds, events, k, id);
  }

  lemma TerminalStays(x: string, u: Evaluations, v: Evaluations, id: nat)
    requires Recovers(x, u, v) && id in u.attempts && u.attempts[id].experiment == x
    requires u.attempts[id].status == Succeeded || u.attempts[id].status == Failed
    ensures id in v.attempts && v.attempts[id] == u.attempts[id]
  {
  }

  // ---- completed tasks and retries ----

  /** A task is completed exactly by a succeeded or a failed attempt of it. */
  lemma CompletedExactly(v: Evaluations, x: string, e: Episode)
    ensures e in CompletedTasks(v, x) <==>
      exists id <- v.attempts :: v.attempts[id].experiment == x && v.attempts[id].episode == e
        && (v.attempts[id].status == Succeeded || v.attempts[id].status == Failed)
  {
  }

  /** No task of the live run for this episode is waiting or executing. */
  predicate Quiet(w: World, e: Episode) {
    w.live.Some? ==> forall s <- w.live.value.slots ::
      s.attempt.episode == e ==> s.phase != Waiting && s.phase != Executing
  }

  /** The attempts of an episode are as they were. */
  ghost predicate SameAttempts(x: string, v: Evaluations, v': Evaluations, e: Episode) {
    forall id :: (id in v.attempts && Of(v.attempts[id], x, e)) || (id in v'.attempts && Of(v'.attempts[id], x, e)) ==>
      id in v.attempts && id in v'.attempts && v'.attempts[id] == v.attempts[id]
  }

  lemma ChangeElsewhere(x: string, v: Evaluations, v': Evaluations, a: Attempt, e: Episode)
    requires ChangesAt(v, v', a) && a.episode != e
    ensures SameAttempts(x, v, v', e)
  {
  }

  lemma BeginElsewhere(x: string, v: Evaluations, live: Live, i: nat, e: Episode)
    requires LiveInv(x, v, live) && i < |live.slots| && live.slots[i].phase == Waiting && live.slots[i].attempt.episode != e
    ensures SameAttempts(x, v, Begin(v, live, i).0, e)
  {
    hide CountsInv, SerialSlots, DistinctSlots, NextUp, IsLast, ExecutingSlots, Register;
    var a := live.slots[i].attempt;
    assert SlotInv(x, v, live.slots[i]);
    BeginFiles(v, live, i);
    hide Begin;
    if Begin(v, live, i).0 == Filed(v, a, Running) {
      FilingChangesAt(x, v, a, Running);
      ChangeElsewhere(x, v, Filed(v, a, Running), a, e);
    }
  }

  lemma RecordElsewhere(x: string, v: Evaluations, live: Live, i: nat, o: Outcome, e: Episode)
    requires LiveInv(x, v, live) && i < |live.slots| && live.slots[i].phase == Executing && live.slots[i].attempt.episode != e
    ensures SameAttempts(x, v, Record(v, live, i, o).0, e)
  {
    hide CountsInv, SerialSlots, DistinctSlots, NextUp, IsLast, ExecutingSlots;
    assert SlotInv(x, v, live.slots[i]);
    if Finish(v, live.slots[i].attempt.id, o).Ok? {
      FinishChangesAt(v, live.slots[i].attempt, o);
      hide Finish;
      ChangeElsewhere(x, v, Finish(v, live.slots[i].attempt.id, o).value, live.slots[i].attempt, e);
    }
  }

  lemma CompleteElsewhere(x: string, v: Evaluations, live: Live, i: nat, reply: Reply, e: Episode)
    requires LiveInv(x, v, live) && i < |live.slots| && live.slots[i].phase == Executing && live.slots[i].attempt.episode != e
    ensures SameAttempts(x, v, Complete(v, live, i, reply).0, e)
  {
    if reply.Threw? {
      RecordElsewhere(x, v, live, i, BROKEN, e);
    } else if reply.Gave? {
      RecordElsewhere(x, v, live, i, reply.outcome, e);
    }
    hide LiveInv, Record;
  }

  lemma AbandonOneElsewhere(x: string, v: Evaluations, live: Live, i: nat, e: Episode)
    requires LiveInv(x, v, live) && i < |live.slots|
    requires live.slots[i].attempt.episode == e ==> live.slots[i].phase != Waiting && live.slots[i].phase != Executing
    ensures SameAttempts(x, v, AbandonOne(v, live, i).0, e)
  {
    if live.slots[i].phase == Executing {
      RecordElsewhere(x, v, live, i, INTERRUPTED, e);
      hide LiveInv, Finish, SameAttempts;
    } else {
      hide CountsInv, SerialSlots, DistinctSlots, NextUp, IsLast, ExecutingSlots;
      assert SlotInv(x, v, live.slots[i]);
    }
  }

  predicate QuietSlots(slots: seq<Slot>, e: Episode) {
    forall s <- slots :: s.attempt.episode == e ==> s.phase != Waiting && s.phase != Executing
  }

  lemma AbandonOneQuiet(v: Evaluations, live: Live, i: nat, e: Episode)
    requires i < |live.slots| && QuietSlots(live.slots, e)
    ensures QuietSlots(AbandonOne(v, live, i).1.slots, e)
  {
    hide Finish;
    assert live.slots[i] in live.slots;
  }

  lemma {:induction false} AbandonElsewhere(x: string, v: Evaluations, live: Live, i: nat, e: Episode)
    requires RecordsInv(x, v) && LiveInv(x, v, live) && QuietSlots(live.slots, e)
    ensures SameAttempts(x, v, Abandon(v, live, i).0, e) && QuietSlots(Abandon(v, live, i).1.slots, e)
    decreases |live.slots| - i
  {
    hide RecordsInv, LiveInv, AbandonOne;
    if i < |live.slots| {
      assert live.slots[i] in live.slots;
      AbandonOneKeeps(x, v, live, i);
      AbandonOneElsewhere(x, v, live, i, e);
      AbandonOneQuiet(v, live, i, e);
      var (v', live') := AbandonOne(v, live, i);
      AbandonElsewhere(x, v', live', i + 1, e);
    }
  }

  /** While an episode is quiet its attempts stay as they are, until the next launch. */
  lemma QuietStep(w: World, ev: Event, e: Episode)
    requires WorldInv(w) && Enabled(w, ev) && !ev.Launch? && Quiet(w, e)
    ensures Quiet(Next(w, ev), e) && SameAttempts(w.experiment, w.store, Next(w, ev).store, e)
  {
    hide RecordsInv, LiveInv, Begin, Complete, Abandon, ExecutingSlots, SameAttempts;
    SameAttemptsReflexive(w.experiment, w.store, e);
    if ev.Acquire? {
      assert w.live.value.slots[ev.i] in w.live.value.slots;
      BeginElsewhere(w.experiment, w.store, w.live.value, ev.i, e);
      BeginMovesOne(w.store, w.live.value, ev.i);
    } else if ev.Answer? {
      assert w.live.value.slots[ev.i] in w.live.value.slots;
      CompleteElsewhere(w.experiment, w.store, w.live.value, ev.i, ev.reply, e);
      CompleteMovesOne(w.store, w.live.value, ev.i, ev.reply);
    } else if ev.AbandonRest? {
      AbandonElsewhere(w.experiment, w.store, w.live.value, 0, e);
    } else if ev.Others? {
      OthersSame(w, ev.store, e);
    }
  }

  lemma SameAttemptsReflexive(x: string, v: Evaluations, e: Episode)
    ensures SameAttempts(x, v, v, e)
  {
  }

  lemma OthersSame(w: World, v': Evaluations, e: Episode)
    requires OthersOnly(w, v')
    ensures SameAttempts(w.experiment, w.store, v', e)
  {
  }

  lemma BeginMovesOne(v: Evaluations, live: Live, i: nat)
    requires i < |live.slots|
    ensures var slots := Begin(v, live, i).1.slots;
      |slots| == |live.slots| && slots == live.slots[i := slots[i]] && slots[i].attempt == live.slots[i].attempt
  {
    hide Register, MarkRunning;
  }

  lemma CompleteMovesOne(v: Evaluations, live: Live, i: nat, reply: Reply)
    requires i < |live.slots|
    ensures var slots := Complete(v, live, i, reply).1.slots;
      |slots| == |live.slots| && slots == live.slots[i := slots[i]] && slots[i].attempt == live.slots[i].attempt
    ensures var slots := Complete(v, live, i, reply).1.slots; slots[i].phase != Waiting && slots[i].phase != Executing
  {
    hide Finish;
  }

  lemma {:induction false} QuietUntilLaunch(x: string, worlds: seq<World>, events: seq<Event>, i: nat, k: nat, e: Episode)
    requires IsHistory(x, worlds, events) && i <= k < |worlds| && Quiet(worlds[i], e)
    requires forall j | i <= j < k :: !events[j].Launch?
    ensures Quiet(worlds[k], e) && SameAttempts(x, worlds[i].store, worlds[k].store, e)
    decreases k
  {
    hide WorldInv, Enabled, Next, Quiet;
    if i < k {
      QuietUntilLaunch(x, worlds, events, i, k - 1, e);
      HistoryInv(x, worlds, events, k - 1);
      QuietStep(worlds[k - 1], events[k - 1], e);
    }
  }

  /** An executor's exception leaves an infrastructure error without a result and completes nothing: the next
      launch that lists the task and is not stopped takes it on again. */
  lemma ThrownIsRetried(x: string, worlds: seq<World>, events: seq<Event>, m: nat, n: nat)
    requires IsHistory(x, worlds, events) && m < n < |events| && events[m].Answer? && events[m].reply == Threw
    requires events[n].Launch? && !events[n].stop && forall j | m < j < n :: !events[j].Launch?
    requires worlds[m].live.Some? && events[m].i < |worlds[m].live.value.slots|
    ensures var a := worlds[m].live.value.slots[events[m].i].attempt;
      var v := worlds[n].store;
      && a.id in v.attempts && v.attempts[a.id].status == InfrastructureError
      && v.attempts[a.id].errorClass == Some("executor_exception")
      && a.episode !in CompletedTasks(v, x)
      && (a.episode in events[n].config.episodes ==>
           worlds[n + 1].live.Some? && exists s <- worlds[n + 1].live.value.slots :: s.attempt.episode == a.episode)
    ensures worlds[m].live.value.slots[events[m].i].attempt.id !in worlds[m + 1].store.results
  {
    var i := events[m].i;
    var live := worlds[m].live.value;
    var a := live.slots[i].attempt;
    hide IsHistory;
    ThrownStep(x, worlds, events, m);
    assert !events[m].Launch?;
    QuietUntilLaunch(x, worlds, events, m + 1, n, a.episode);
    CompletedExactly(worlds[n].store, x, a.episode);
    ResumesEveryTask(x, worlds, events, n);
  }

  lemma ThrownStep(x: string, worlds: seq<World>, events: seq<Event>, m: nat)
    requires IsHistory(x, worlds, events) && m < |events| && events[m].Answer? && events[m].reply == Threw
    ensures worlds[m].live.Some? && events[m].i < |worlds[m].live.value.slots| && |worlds| == |events| + 1
    ensures var a := worlds[m].live.value.slots[events[m].i].attempt;
      var v := worlds[m + 1].store;
      && a.experiment == x && a.id in v.attempts && Of(v.attempts[a.id], x, a.episode)
      && v.attempts[a.id].status == InfrastructureError && v.attempts[a.id].errorClass == Some("executor_exception")
      && a.id !in v.results && Quiet(worlds[m + 1], a.episode)
      && forall id <- v.attempts :: Of(v.attempts[id], x, a.episode) ==>
           v.attempts[id].status != Succeeded && v.attempts[id].status != Failed
  {
    assert Enabled(worlds[m], events[m]) && worlds[m + 1] == Next(worlds[m], events[m]);
    HistoryInv(x, worlds, events, m);
    var v, live, i := worlds[m].store, worlds[m].live.value, events[m].i;
    hide IsHistory;
    ThrownLeaves(x, v, live, i);
  }

  lemma ThrownLeaves(x: string, v: Evaluations, live: Live, i: nat)
    requires LiveInv(x, v, live) && i < |live.slots| && live.slots[i].phase == Executing
    ensures var a := live.slots[i].attempt;
      var (v', live') := Complete(v, live, i, Threw);
      && a.experiment == x && a.id in v'.attempts && Of(v'.attempts[a.id], x, a.episode)
      && v'.attempts[a.id].status == InfrastructureError && v'.attempts[a.id].errorClass == Some("executor_exception")
      && a.id !in v'.results && QuietSlots(live'.slots, a.episode)
      && forall id <- v'.attempts :: Of(v'.attempts[id], x, a.episode) ==>
           v'.attempts[id].status != Succeeded && v'.attempts[id].status != Failed
  {
    hide CountsInv, SerialSlots, ExecutingSlots;
    assert SlotInv(x, v, live.slots[i]);
    CompleteMovesOne(v, live, i, Threw);
  }

  // ---- a stopped run ----

  predicate Stopped(w: World) {
    w.live.Some? && w.live.value.stop
  }

  /** The experiment's attempts. */
  function AttemptIds(v: Evaluations, x: string): set<nat> {
    set id | id in v.attempts && v.attempts[id].experiment == x
  }

  lemma {:induction false} AbandonStarts(v: Evaluations, live: Live, i: nat, x: string)
    ensures AttemptIds(Abandon(v, live, i).0, x) == AttemptIds(v, x) && Abandon(v, live, i).1.stop == live.stop
    decreases |live.slots| - i
  {
    if i < |live.slots| {
      AbandonOneStarts(v, live, i, x);
      var (v', live') := AbandonOne(v, live, i);
      AbandonStarts(v', live', i + 1, x);
    }
  }

  lemma AbandonOneStarts(v: Evaluations, live: Live, i: nat, x: string)
    requires i < |live.slots|
    ensures AttemptIds(AbandonOne(v, live, i).0, x) == AttemptIds(v, x) && AbandonOne(v, live, i).1.stop == live.stop
  {
  }

  lemma StoppedStep(w: World, e: Event)
    requires Enabled(w, e) && Stopped(w)
    ensures AttemptIds(Next(w, e).store, w.experiment) == AttemptIds(w.store, w.experiment)
    ensures Next(w, e).live.Some? ==> Stopped(Next(w, e))
  {
    hide Abandon, ExecutingSlots, AllDone;
    if e.AbandonRest? {
      AbandonStarts(w.store, w.live.value, 0, w.experiment);
    }
  }

  /** Once a run is stopping it starts no task: until the next launch no attempt of the experiment is added. */
  lemma {:induction false} StoppedStartsNothing(x: string, worlds: seq<World>, events: seq<Event>, i: nat, k: nat)
    requires IsHistory(x, worlds, events) && i <= k < |worlds| && Stopped(worlds[i])
    requires forall j | i <= j < k :: !events[j].Launch?
    ensures AttemptIds(worlds[k].store, x) == AttemptIds(worlds[i].store, x)
    ensures worlds[k].live.Some? ==> Stopped(worlds[k])
    decreases k
  {
    hide WorldInv, Enabled, Next, Stopped, AttemptIds;
    if i < k {
      StoppedStartsNothing(x, worlds, events, i, k - 1);
      HistoryInv(x, worlds, events, k - 1);
      var w, e := worlds[k - 1], events[k - 1];
      if w.live.Some? {
        StoppedStep(w, e);
      } else {
        IdleStep(w, e);
      }
    }
  }

  lemma IdleStep(w: World, e: Event)
    requires Enabled(w, e) && w.live.None? && !e.Launch?
    ensures AttemptIds(Next(w, e).store, w.experiment) == AttemptIds(w.store, w.experiment) && Next(w, e).live.None?
  {
  }

  /** Abandoning the rest leaves no task waiting or executing, so that the run returns; those that were executing are
      counted as interrupted, and those that were waiting leave no record. */
  lemma {:induction false} AbandonEndsAll(x: string, v: Evaluations, live: Live, i: nat)
    requires RecordsInv(x, v) && LiveInv(x, v, live)
    requires forall k | 0 <= k < i && k < |live.slots| :: live.slots[k].phase != Waiting && live.slots[k].phase != Executing
    ensures AllDone(Abandon(v, live, i).1.slots)
    decreases |live.slots| - i
  {
    hide RecordsInv, LiveInv;
    if i < |live.slots| {
      AbandonOneKeeps(x, v, live, i);
      var (v', live') := AbandonOne(v, live, i);
      AbandonOneEnds(v, live, i);
      hide AbandonOne;
      AbandonEndsAll(x, v', live', i + 1);
    }
  }

  lemma AbandonOneEnds(v: Evaluations, live: Live, i: nat)
    requires i < |live.slots|
    ensures var slots, was := AbandonOne(v, live, i).1.slots, live.slots[i].phase;
      && |slots| == |live.slots| && (forall k | 0 <= k < |slots| && k != i :: slots[k] == live.slots[k])
      && (was == Waiting || was == Executing ==> slots[i].phase == Finished || slots[i].phase == Skipped)
      && (was != Waiting && was != Executing ==> slots[i] == live.slots[i])
  {
    hide Finish;
  }

  // ---- what the store refuses ----

  /** A registration is refused exactly for a known id, or for a run, task, mode and number already on file; the
      attempt is then filed as it is. */
  lemma RegistersExactly(v: Evaluations, a: Attempt)
    ensures Register(v, a) == Err(AttemptIdentity) <==> a.id in v.attempts
    ensures Register(v, a) == Err(AttemptSequence) <==> a.id !in v.attempts && exists id <- v.attempts ::
      v.attempts[id].run == a.run && v.attempts[id].episode.task == a.episode.task
      && v.attempts[id].episode.mode == a.episode.mode && v.attempts[id].number == a.number
    ensures Register(v, a).Err? ==> Register(v, a).error == AttemptIdentity || Register(v, a).error == AttemptSequence
    ensures Register(v, a).Ok? ==>
      Register(v, a).value.attempts == v.attempts[a.id := a] && Register(v, a).value.results == v.results
  {
    assert forall b :: SameSlot(b, a) <==>
      b.run == a.run && b.episode.task == a.episode.task && b.episode.mode == a.episode.mode && b.number == a.number;
    if exists id <- v.attempts :: v.attempts[id].run == a.run && v.attempts[id].episode.task == a.episode.task
         && v.attempts[id].episode.mode == a.episode.mode && v.attempts[id].number == a.number {
      var id :| id in v.attempts && v.attempts[id].run == a.run && v.attempts[id].episode.task == a.episode.task
        && v.attempts[id].episode.mode == a.episode.mode && v.attempts[id].number == a.number;
      assert SameSlot(v.attempts[id], a);
    }
  }

  /** Only a pending attempt starts running; only a running one finishes, with an error class unless it succeeds
      and a result only if it does, once. Refusals are told in this order. */
  lemma FinishesExactly(v: Evaluations, id: nat, o: Outcome)
    ensures MarkRunning(v, id).Ok? <==> id in v.attempts && v.attempts[id].status == Pending
    ensures MarkRunning(v, id).Ok? ==>
      MarkRunning(v, id).value.attempts == v.attempts[id := v.attempts[id].(status := Running)]
    ensures Finish(v, id, o) == Err(StatusTransition) <==> !(id in v.attempts && v.attempts[id].status == Running)
    ensures Finish(v, id, o) == Err(SucceededWithError) <==>
      id in v.attempts && v.attempts[id].status == Running && o.errorClass.Some? && o.status == Succeeded
    ensures Finish(v, id, o) == Err(ResultNeedsSuccess) <==>
      id in v.attempts && v.attempts[id].status == Running && o.result.Some? && o.status != Succeeded
    ensures Finish(v, id, o) == Err(ResultRecorded) <==>
      id in v.attempts && v.attempts[id].status == Running && o.status == Succeeded && o.errorClass.None? && o.result.Some?
      && id in v.results
    ensures Finish(v, id, o).Ok? <==>
      id in v.attempts && v.attempts[id].status == Running && Storable(o) && (o.result.Some? ==> id !in v.results)
  {
  }
}
