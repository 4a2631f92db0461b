/** Every event of every history keeps the invariant. */
module RunnerSafety {
  import opened Common
  import opened EvaluationStore
  import opened EvaluationRunner
  import opened RunnerInvariants
  import TaskQueue

  /** Enough for one slot's move to keep what is known of the live runner. */
  lemma MoveKeepsLive(x: string, v: Evaluations, live: Live, v': Evaluations, live': Live, i: nat)
    requires LiveInv(x, v, live) && MovesSlot(v, live, v', live', i)
    requires SlotInv(x, v', live'.slots[i]) && CountsInv(v', live')
    requires live'.slots[i].phase == Executing ==> |ExecutingSlots(live.slots)| < live.concurrency
    ensures LiveInv(x, v', live')
  {
    assert live'.concurrency == live.concurrency;
    hide SlotInv, CountsInv, DistinctSlots, SerialSlots, MovesSlot, ExecutingSlots;
    SlotsKept(x, v, live, v', live', i);
    ShapeKept(v, live, v', live', i);
    ExecutingBounded(v, live, v', live', i);
  }

  /** A slot leaves without touching the store. */
  lemma LeavingKeepsLive(x: string, v: Evaluations, live: Live, i: nat, phase: Phase)
    requires LiveInv(x, v, live) && i < |live.slots|
    requires || phase == Raised || (phase == Skipped && live.slots[i].phase == Waiting)
             || (phase == Cancelled && live.slots[i].phase == Executing)
    requires live.slots[i].phase != Finished
    ensures LiveInv(x, v, live.(slots := Move(live.slots, i, phase)))
  {
    var live' := live.(slots := Move(live.slots, i, phase));
    assert SlotInv(x, v, live.slots[i]);
    assert SlotInv(x, v, live'.slots[i]);
    assert MovesSlot(v, live, v, live', i);
    hide SlotInv, DistinctSlots, SerialSlots, MovesSlot, ExecutingSlots, FinishedWith;
    CountsKept(v, live, v, live', i);
    MoveKeepsLive(x, v, live, v, live', i);
  }

  /** Registering and marking running file the attempt as running. */
  lemma BeginFiles(v: Evaluations, live: Live, i: nat)
    requires i < |live.slots| && live.slots[i].attempt.status == Pending
    ensures var a := live.slots[i].attempt;
      var (v', live') := Begin(v, live, i);
      || (live.stop && v' == v && live' == live.(slots := Move(live.slots, i, Skipped)))
      || (!live.stop && Register(v, a).Err? && v' == v && live' == live.(slots := Move(live.slots, i, Raised)))
      || (!live.stop && Register(v, a).Ok? && v' == Filed(v, a, Running)
          && live' == live.(slots := Move(live.slots, i, Executing)))
  {
    var a := live.slots[i].attempt;
    if !live.stop && Register(v, a).Ok? {
      assert v.attempts[a.id := a][a.id := a.(status := Running)] == v.attempts[a.id := a.(status := Running)];
    }
  }

  lemma BeginKeeps(x: string, v: Evaluations, live: Live, i: nat)
    requires RecordsInv(x, v) && LiveInv(x, v, live)
    requires i < |live.slots| && live.slots[i].phase == Waiting
    requires |ExecutingSlots(live.slots)| < live.concurrency
    ensures var (v', live') := Begin(v, live, i); RecordsInv(x, v') && LiveInv(x, v', live')
  {
    var a := live.slots[i].attempt;
    hide Begin, Register, RecordsInv, ExecutingSlots, SerialSlots, DistinctSlots, CountsInv, NextUp, Filed;
    assert SlotInv(x, v, live.slots[i]);
    assert a.experiment == x && a.status == Pending && a.id !in v.attempts && NextUp(x, v, a);
    hide LiveInv, SlotInv;
    BeginFiles(v, live, i);
    if live.stop {
      LeavingKeepsLive(x, v, live, i, Skipped);
    } else if Register(v, a).Err? {
      LeavingKeepsLive(x, v, live, i, Raised);
    } else {
      FilingKeepsRecords(x, v, a, Running);
      FilingChangesAt(x, v, a, Running);
      ExecutingKeepsLive(x, v, live, i);
    }
  }

  lemma ExecutingKeepsLive(x: string, v: Evaluations, live: Live, i: nat)
    requires LiveInv(x, v, live) && i < |live.slots| && live.slots[i].phase == Waiting
    requires |ExecutingSlots(live.slots)| < live.concurrency
    requires live.slots[i].attempt.id !in v.results
    requires ChangesAt(v, Filed(v, live.slots[i].attempt, Running), live.slots[i].attempt)
    requires IsLast(x, Filed(v, live.slots[i].attempt, Running), live.slots[i].attempt)
    ensures LiveInv(x, Filed(v, live.slots[i].attempt, Running), live.(slots := Move(live.slots, i, Executing)))
  {
    var a := live.slots[i].attempt;
    var v', live' := Filed(v, a, Running), live.(slots := Move(live.slots, i, Executing));
    hide IsLast, ChangesAt, ExecutingSlots, DistinctSlots, SerialSlots, CountsInv, NextUp;
    assert SlotInv(x, v, live.slots[i]);
    assert SlotInv(x, v', live'.slots[i]);
    assert MovesSlot(v, live, v', live', i);
    hide SlotInv, Filed, MovesSlot;
    CountsKept(v, live, v', live', i);
    MoveKeepsLive(x, v, live, v', live', i);
  }

  /** The outcome of an executing slot is recorded and counted. */
  lemma FinishingKeeps(x: string, v: Evaluations, live: Live, i: nat, o: Outcome)
    requires RecordsInv(x, v) && LiveInv(x, v, live)
    requires i < |live.slots| && live.slots[i].phase == Executing
    requires Finish(v, live.slots[i].attempt.id, o).Ok?
    ensures var v' := Finish(v, live.slots[i].attempt.id, o).value;
      && RecordsInv(x, v')
      && LiveInv(x, v', live.(slots := Move(live.slots, i, Finished), counts := Counted(live.counts, o.status)))
  {
    hide RecordsInv, IsLast, ExecutingSlots, DistinctSlots, SerialSlots, CountsInv;
    var a := live.slots[i].attempt;
    assert SlotInv(x, v, live.slots[i]);
    FinishKeepsRecords(x, v, a, o);
    FinishChangesAt(v, a, o);
    var v' := Finish(v, a.id, o).value;
    hide Finish;
    var live' := live.(slots := Move(live.slots, i, Finished), counts := Counted(live.counts, o.status));
    assert SlotInv(x, v', live'.slots[i]);
    assert MovesSlot(v, live, v', live', i);
    hide SlotInv, MovesSlot, ChangesAt;
    CountsGrow(v, live, v', live', i, o.status);
    MoveKeepsLive(x, v, live, v', live', i);
  }

  lemma RecordKeeps(x: string, v: Evaluations, live: Live, i: nat, o: Outcome)
    requires RecordsInv(x, v) && LiveInv(x, v, live)
    requires i < |live.slots| && live.slots[i].phase == Executing
    ensures var (v', live') := Record(v, live, i, o); RecordsInv(x, v') && LiveInv(x, v', live')
  {
    hide RecordsInv, LiveInv, Finish;
    if Finish(v, live.slots[i].attempt.id, o).Ok? {
      FinishingKeeps(x, v, live, i, o);
    } else {
      LeavingKeepsLive(x, v, live, i, Raised);
    }
  }

  lemma CompleteKeeps(x: string, v: Evaluations, live: Live, i: nat, reply: Reply)
    requires RecordsInv(x, v) && LiveInv(x, v, live)
    requires i < |live.slots| && live.slots[i].phase == Executing
    ensures var (v', live') := Complete(v, live, i, reply); RecordsInv(x, v') && LiveInv(x, v', live')
  {
    hide RecordsInv, LiveInv, Record;
    match reply {
      case ThrewConflict => LeavingKeepsLive(x, v, live, i, Raised);
      case ThrewCancelled => LeavingKeepsLive(x, v, live, i, Cancelled);
      case Threw => RecordKeeps(x, v, live, i, BROKEN);
      case Gave(outcome) => RecordKeeps(x, v, live, i, outcome);
    }
  }

  /** An interrupted slot was executing; a waiting one has no record to finish. */
  lemma AbandonOneKeeps(x: string, v: Evaluations, live: Live, i: nat)
    requires RecordsInv(x, v) && LiveInv(x, v, live) && i < |live.slots|
    ensures var (v', live') := AbandonOne(v, live, i);
      RecordsInv(x, v') && LiveInv(x, v', live') && |live'.slots| == |live.slots| && live'.run == live.run
  {
    hide RecordsInv, NextUp, IsLast, ExecutingSlots, DistinctSlots, SerialSlots, CountsInv;
    var phase := live.slots[i].phase;
    if phase == Waiting || phase == Executing {
      assert SlotInv(x, v, live.slots[i]);
      var finished := Finish(v, live.slots[i].attempt.id, INTERRUPTED);
      assert finished.Ok? <==> phase == Executing;
      hide LiveInv, Finish, SlotInv;
      if finished.Ok? {
        FinishingKeeps(x, v, live, i, INTERRUPTED);
      } else {
        LeavingKeepsLive(x, v, live, i, Skipped);
      }
    }
  }

  lemma {:induction false} AbandonKeeps(x: string, v: Evaluations, live: Live, i: nat)
    requires RecordsInv(x, v) && LiveInv(x, v, live)
    ensures var (v', live') := Abandon(v, live, i); RecordsInv(x, v') && LiveInv(x, v', live')
    decreases |live.slots| - i
  {
    hide RecordsInv, LiveInv, AbandonOne;
    if i < |live.slots| {
      AbandonOneKeeps(x, v, live, i);
      var (v', live') := AbandonOne(v, live, i);
      AbandonKeeps(x, v', live', i + 1);
    }
  }

  // ---- launching and resuming ----

  lemma NewSlotIsNext(x: string, v: Evaluations, run: nat, latest: map<Episode, Attempt>, e: Episode, id: nat)
    requires IsUnfinished(v, x, latest) && e !in CompletedTasks(v, x) && id !in v.attempts
    ensures SlotInv(x, v, NewSlot(x, run, latest, e, id))
  {
    var a := NewSlot(x, run, latest, e, id).attempt;
    forall other <- v.attempts | Of(v.attempts[other], x, e)
      ensures v.attempts[other].number < a.number && !IsTerminal(v.attempts[other].status)
    {
      assert IsTerminal(v.attempts[other].status) ==> e in CompletedTasks(v, x);
    }
    if e in latest {
      assert HasNumber(v, x, e, latest[e].number) by {
        assert latest[e].id in v.attempts && Of(v.attempts[latest[e].id], x, e);
      }
    }
  }

  /** Slots of one queue are of distinct tasks, and of distinct task ids when several may run at once. */
  lemma QueueShapes(c: Config, completed: set<Episode>, queue: seq<Episode>, slots: seq<Slot>)
    requires c.Valid() && TaskQueue.IsQueue(c.episodes, completed, queue) && |slots| <= |queue|
    requires forall i | 0 <= i < |slots| :: slots[i].attempt.episode == queue[i]
    requires forall i, j | 0 <= i < j < |slots| :: slots[i].attempt.id != slots[j].attempt.id
    ensures DistinctSlots(slots)
    ensures c.concurrency > 1 ==>
      forall i, j | 0 <= i < j < |slots| :: slots[i].attempt.episode.task != slots[j].attempt.episode.task
  {
    TaskQueue.QueueIsExact(c.episodes, completed, queue);
    hide TaskQueue.IsQueue;
    if c.concurrency > 1 {
      forall i, j | 0 <= i < j < |slots|
        ensures slots[i].attempt.episode.task != slots[j].attempt.episode.task
      {
        if queue[i].task == queue[j].task {
          SameTaskSameEpisode(c, queue[i], queue[j]);
          assert false;
        }
      }
    }
  }

  lemma SameTaskSameEpisode(c: Config, d: Episode, e: Episode)
    requires c.concurrency > 1 && c.SameTaskSerial() && d in c.episodes && e in c.episodes && d.task == e.task
    ensures d == e
  {
    var i :| 0 <= i < |c.episodes| && c.episodes[i] == d;
    var j :| 0 <= j < |c.episodes| && c.episodes[j] == e;
    if i < j {
      assert c.episodes[i].mode == c.episodes[j].mode;
    } else if j < i {
      assert c.episodes[j].mode == c.episodes[i].mode;
    }
  }

  lemma LaunchedSlots(x: string, v: Evaluations, run: nat, latest: map<Episode, Attempt>, queue: seq<Episode>,
      ids: seq<nat>, i: nat)
    requires |ids| == |queue| && i < |queue|
    requires IsUnfinished(v, x, latest) && queue[i] !in CompletedTasks(v, x) && ids[i] !in v.attempts
    ensures SlotInv(x, v, NewSlots(x, run, latest, queue, ids)[i])
  {
    hide IsUnfinished, CompletedTasks, SlotInv;
    NewSlotIsNext(x, v, run, latest, queue[i], ids[i]);
  }

  lemma LaunchKeeps(w: World, e: Event)
    requires WorldInv(w) && e.Launch? && Enabled(w, e)
    ensures WorldInv(Next(w, e))
  {
    var x, v := w.experiment, w.store;
    var live := Next(w, e).live.value;
    TaskQueue.QueueIsExact(e.config.episodes, CompletedTasks(v, x), e.queue);
    hide IsUnfinished, CompletedTasks, RecordsInv, SlotInv, LiveInv, TaskQueue.IsQueue;
    forall i | 0 <= i < |live.slots|
      ensures SlotInv(x, v, live.slots[i])
    {
      assert e.queue[i] in e.queue;
      LaunchedSlots(x, v, e.run, e.latest, e.queue, e.ids, i);
    }
    QueueShapes(e.config, CompletedTasks(v, x), e.queue, live.slots);
    FreshLive(x, v, live);
  }

  lemma FreshLive(x: string, v: Evaluations, live: Live)
    requires DistinctSlots(live.slots) && SerialSlots(live) && live.concurrency >= 1 && live.counts == map[]
    requires forall s <- live.slots :: s.phase == Waiting
    requires forall i | 0 <= i < |live.slots| :: SlotInv(x, v, live.slots[i])
    ensures LiveInv(x, v, live)
  {
    hide SlotInv, DistinctSlots, SerialSlots;
    assert ExecutingSlots(live.slots) == {};
    forall s: Status
      ensures CountOf(live.counts, s) == |FinishedWith(v, live.slots, s)|
    {
      assert FinishedWith(v, live.slots, s) == {};
    }
  }

  // ---- runners of other experiments ----

  lemma OthersHasNumber(w: World, v': Evaluations, e: Episode, n: nat)
    requires OthersOnly(w, v') && HasNumber(w.store, w.experiment, e, n)
    ensures HasNumber(v', w.experiment, e, n)
  {
    var id :| id in w.store.attempts && Of(w.store.attempts[id], w.experiment, e) && w.store.attempts[id].number == n;
    assert Of(v'.attempts[id], w.experiment, e) && v'.attempts[id].number == n;
  }

  lemma OthersKeepNoGap(w: World, v': Evaluations)
    requires OthersOnly(w, v') && NoGap(w.experiment, w.store)
    ensures NoGap(w.experiment, v')
  {
    hide HasNumber;
    forall id <- v'.attempts | v'.attempts[id].experiment == w.experiment && v'.attempts[id].number > 1
      ensures HasNumber(v', w.experiment, v'.attempts[id].episode, v'.attempts[id].number - 1)
    {
      OthersHasNumber(w, v', v'.attempts[id].episode, v'.attempts[id].number - 1);
    }
  }

  lemma OthersKeepRecords(w: World, v': Evaluations)
    requires OthersOnly(w, v') && RecordsInv(w.experiment, w.store)
    ensures RecordsInv(w.experiment, v')
  {
    hide NoGap;
    OthersKeepNoGap(w, v');
  }

  lemma OthersKeepSlot(w: World, v': Evaluations, i: nat)
    requires OthersOnly(w, v') && w.live.Some? && i < |w.live.value.slots|
    requires SlotInv(w.experiment, w.store, w.live.value.slots[i])
    ensures SlotInv(w.experiment, v', w.live.value.slots[i])
  {
    hide HasNumber;
    var s := w.live.value.slots[i];
    if s.phase == Waiting && s.attempt.number > 1 {
      OthersHasNumber(w, v', s.attempt.episode, s.attempt.number - 1);
    }
  }

  lemma OthersKeepFinished(w: World, v': Evaluations, s: Status)
    requires OthersOnly(w, v') && w.live.Some?
    requires forall i | 0 <= i < |w.live.value.slots| :: SlotInv(w.experiment, w.store, w.live.value.slots[i])
    ensures FinishedWith(v', w.live.value.slots, s) == FinishedWith(w.store, w.live.value.slots, s)
  {
    hide NextUp, IsLast;
    var slots := w.live.value.slots;
    forall i | 0 <= i < |slots|
      ensures i in FinishedWith(v', slots, s) <==> i in FinishedWith(w.store, slots, s)
    {
      assert SlotInv(w.experiment, w.store, slots[i]);
    }
  }

  lemma OthersKeep(w: World, v': Evaluations)
    requires WorldInv(w) && OthersOnly(w, v')
    ensures WorldInv(w.(store := v'))
  {
    hide OthersOnly, RecordsInv, SlotInv, FinishedWith, ExecutingSlots, DistinctSlots, SerialSlots;
    OthersKeepRecords(w, v');
    if w.live.Some? {
      forall i | 0 <= i < |w.live.value.slots|
        ensures SlotInv(w.experiment, v', w.live.value.slots[i])
      {
        OthersKeepSlot(w, v', i);
      }
      forall s: Status
        ensures FinishedWith(v', w.live.value.slots, s) == FinishedWith(w.store, w.live.value.slots, s)
      {
        OthersKeepFinished(w, v', s);
      }
    }
  }

  // ---- every event ----

  lemma StopKeeps(w: World)
    requires WorldInv(w) && w.live.Some?
    ensures WorldInv(w.(live := Some(w.live.value.(stop := true))))
  {
    hide RecordsInv, SlotInv, FinishedWith, ExecutingSlots, DistinctSlots;
  }

  lemma StepKeeps(w: World, e: Event)
    requires WorldInv(w) && Enabled(w, e)
    ensures WorldInv(Next(w, e)) && Next(w, e).experiment == w.experiment
  {
    hide RecordsInv, LiveInv, Begin, Complete, Abandon, OthersOnly, ExecutingSlots, IsUnfinished, TaskQueue.IsQueue;
    if e.Launch? {
      LaunchKeeps(w, e);
    } else if e.Acquire? {
      BeginKeeps(w.experiment, w.store, w.live.value, e.i);
    } else if e.Answer? {
      CompleteKeeps(w.experiment, w.store, w.live.value, e.i, e.reply);
    } else if e.Stop? {
      StopKeeps(w);
    } else if e.AbandonRest? {
      AbandonKeeps(w.experiment, w.store, w.live.value, 0);
    } else if e.Others? {
      OthersKeep(w, e.store);
    }
  }

  /** The invariant holds after any number of runs, stops, crashes and resumes. */
  lemma {:induction false} HistoryInv(x: string, worlds: seq<World>, events: seq<Event>, k: nat)
    requires IsHistory(x, worlds, events) && k < |worlds|
    ensures WorldInv(worlds[k]) && worlds[k].experiment == x
  {
    hide WorldInv, Enabled, Next;
    if k == 0 {
      EmptyInv(x);
    } else {
      HistoryInv(x, worlds, events, k - 1);
      assert Enabled(worlds[k - 1], events[k - 1]);
      StepKeeps(worlds[k - 1], events[k - 1]);
    }
  }

  lemma EmptyInv(x: string)
    ensures WorldInv(Start(x, EMPTY))
  {
  }
}
