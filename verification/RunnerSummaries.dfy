/** What holds while one run is live, and what its summary says when it returns. */
module RunnerSummaries {
  import opened Common
  import opened EvaluationStore
  import opened EvaluationRunner
  import opened RunnerInvariants
  import opened RunnerSafety
  import TaskQueue

  /** The slots whose attempt is registered and stored with status `s`. */
  function StoredWith(v: Evaluations, slots: seq<Slot>, s: Status): set<nat> {
    set i: nat | i < |slots| && slots[i].attempt.id in v.attempts && v.attempts[slots[i].attempt.id].status == s
  }

  function Registered(v: Evaluations, slots: seq<Slot>): set<nat> {
    set i: nat | i < |slots| && slots[i].attempt.id in v.attempts
  }

  lemma LiveAt(x: string, worlds: seq<World>, events: seq<Event>, k: nat)
    requires IsHistory(x, worlds, events) && k < |worlds| && worlds[k].live.Some?
    ensures RecordsInv(x, worlds[k].store) && LiveInv(x, worlds[k].store, worlds[k].live.value)
  {
    hide IsHistory, RecordsInv, LiveInv;
    HistoryInv(x, worlds, events, k);
  }

  // ---- what executors leave behind ----

  /** How a task that executes no longer can leave its attempt: stored as pending, stored as running, the
      latter with a runner-level error, or with a cancellation its executor raised of itself. */
  datatype Leftover = AsPending | AsRunning | AsRaised | AsCancelled

  predicate IsLeft(v: Evaluations, s: Slot, kind: Leftover) {
    match kind
    case AsPending => s.attempt.id in v.attempts && v.attempts[s.attempt.id].status == Pending
    case AsRunning => s.phase != Executing && s.attempt.id in v.attempts && v.attempts[s.attempt.id].status == Running
    case AsRaised => s.phase == Raised && s.attempt.id in v.attempts && v.attempts[s.attempt.id].status == Running
    case AsCancelled => s.phase == Cancelled
  }

  /** An outcome the store records: no error class on a success, a result on a success only. */
  predicate Storable(o: Outcome) {
    (o.errorClass.Some? ==> o.status != Succeeded) && (o.result.Some? ==> o.status == Succeeded)
  }

  /** The ends of an executor's call that leave the attempt so. */
  predicate Leaves(reply: Reply, kind: Leftover) {
    match kind
    case AsPending => reply.Gave? && Storable(reply.outcome) && reply.outcome.status == Pending
    case AsRunning =>
      || reply.ThrewConflict? || reply.ThrewCancelled?
      || (reply.Gave? && (Storable(reply.outcome) ==> reply.outcome.status == Running))
    case AsRaised => reply.ThrewConflict? || (reply.Gave? && !Storable(reply.outcome))
    case AsCancelled => reply.ThrewCancelled?
  }

  predicate LeavesAt(e: Event, i: nat, kind: Leftover) {
    e.Answer? && e.i == i && Leaves(e.reply, kind)
  }

  /** Event `m` belongs to the run that is live after the first `k` events. */
  predicate SameRun(events: seq<Event>, m: nat, k: nat) {
    m < k <= |events| && forall j | m <= j < k :: !events[j].Launch?
  }

  /** In the run live after `k` events an executor has left slot `i` so. */
  predicate LeftBefore(events: seq<Event>, k: nat, i: nat, kind: Leftover) {
    exists m | 0 <= m < k :: SameRun(events, m, k) && LeavesAt(events[m], i, kind)
  }

  lemma RecordLeaves(x: string, v: Evaluations, live: Live, i: nat, o: Outcome, j: nat, kind: Leftover)
    requires LiveInv(x, v, live) && i < |live.slots| && j < |live.slots| && live.slots[i].phase == Executing
    ensures var (v', live') := Record(v, live, i, o);
      |live'.slots| == |live.slots|
      && (IsLeft(v', live'.slots[j], kind) <==>
           IsLeft(v, live.slots[j], kind) || (i == j && Leaves(Gave(o), kind)))
  {
    hide CountsInv, SerialSlots, NextUp, IsLast, ExecutingSlots;
    assert SlotInv(x, v, live.slots[i]) && SlotInv(x, v, live.slots[j]);
  }

  lemma CompleteLeaves(x: string, v: Evaluations, live: Live, i: nat, reply: Reply, j: nat, kind: Leftover)
    requires LiveInv(x, v, live) && i < |live.slots| && j < |live.slots| && live.slots[i].phase == Executing
    ensures var (v', live') := Complete(v, live, i, reply);
      |live'.slots| == |live.slots|
      && (IsLeft(v', live'.slots[j], kind) <==>
           IsLeft(v, live.slots[j], kind) || (i == j && Leaves(reply, kind)))
  {
    hide CountsInv, SerialSlots, DistinctSlots, NextUp, IsLast, ExecutingSlots, Record;
    assert SlotInv(x, v, live.slots[i]);
    if reply.Threw? {
      RecordLeaves(x, v, live, i, BROKEN, j, kind);
    } else if reply.Gave? {
      RecordLeaves(x, v, live, i, reply.outcome, j, kind);
    }
  }

  lemma BeginLeaves(x: string, v: Evaluations, live: Live, i: nat, j: nat, kind: Leftover)
    requires LiveInv(x, v, live) && i < |live.slots| && j < |live.slots| && live.slots[i].phase == Waiting
    ensures var (v', live') := Begin(v, live, i);
      |live'.slots| == |live.slots| && (IsLeft(v', live'.slots[j], kind) <==> IsLeft(v, live.slots[j], kind))
  {
    hide CountsInv, SerialSlots, NextUp, IsLast, ExecutingSlots, Register;
    assert SlotInv(x, v, live.slots[i]);
    BeginFiles(v, live, i);
    hide Begin;
  }

  lemma AbandonOneLeaves(x: string, v: Evaluations, live: Live, i: nat, j: nat, kind: Leftover)
    requires LiveInv(x, v, live) && i < |live.slots| && j < |live.slots|
    ensures var (v', live') := AbandonOne(v, live, i);
      |live'.slots| == |live.slots| && (IsLeft(v', live'.slots[j], kind) <==> IsLeft(v, live.slots[j], kind))
  {
    hide CountsInv, SerialSlots, NextUp, IsLast, ExecutingSlots;
    assert SlotInv(x, v, live.slots[i]) && SlotInv(x, v, live.slots[j]);
  }

  lemma {:induction false} AbandonLeaves(x: string, v: Evaluations, live: Live, i: nat, j: nat, kind: Leftover)
    requires RecordsInv(x, v) && LiveInv(x, v, live) && j < |live.slots|
    ensures var (v', live') := Abandon(v, live, i);
      |live'.slots| == |live.slots| && (IsLeft(v', live'.slots[j], kind) <==> IsLeft(v, live.slots[j], kind))
    decreases |live.slots| - i
  {
    hide RecordsInv, LiveInv, AbandonOne, IsLeft;
    if i < |live.slots| {
      AbandonOneKeeps(x, v, live, i);
      AbandonOneLeaves(x, v, live, i, j, kind);
      var (v', live') := AbandonOne(v, live, i);
      AbandonLeaves(x, v', live', i + 1, j, kind);
    }
  }

  lemma OthersLeave(w: World, v': Evaluations, j: nat, kind: Leftover)
    requires OthersOnly(w, v') && w.live.Some? && j < |w.live.value.slots|
    requires SlotInv(w.experiment, w.store, w.live.value.slots[j])
    ensures IsLeft(v', w.live.value.slots[j], kind) <==> IsLeft(w.store, w.live.value.slots[j], kind)
  {
    hide NextUp, IsLast;
  }

  /** One event of a live run leaves behind what its executor's end says, and clears nothing. */
  lemma StepLeaves(w: World, e: Event, j: nat, kind: Leftover)
    requires WorldInv(w) && Enabled(w, e) && w.live.Some? && Next(w, e).live.Some? && j < |w.live.value.slots|
    ensures var w' := Next(w, e);
      |w'.live.value.slots| == |w.live.value.slots|
      && (IsLeft(w'.store, w'.live.value.slots[j], kind) <==>
           IsLeft(w.store, w.live.value.slots[j], kind) || LeavesAt(e, j, kind))
  {
    hide RecordsInv, LiveInv, Begin, Complete, Abandon, OthersOnly, ExecutingSlots, IsLeft, Leaves;
    if e.Acquire? {
      BeginLeaves(w.experiment, w.store, w.live.value, e.i, j, kind);
    } else if e.Answer? {
      CompleteLeaves(w.experiment, w.store, w.live.value, e.i, e.reply, j, kind);
    } else if e.AbandonRest? {
      AbandonLeaves(w.experiment, w.store, w.live.value, 0, j, kind);
    } else if e.Others? {
      assert LiveInv(w.experiment, w.store, w.live.value) ==> SlotInv(w.experiment, w.store, w.live.value.slots[j]) by {
        SlotOfLive(w.experiment, w.store, w.live.value, j);
      }
      OthersLeave(w, e.store, j, kind);
    }
  }

  lemma SlotOfLive(x: string, v: Evaluations, live: Live, j: nat)
    requires j < |live.slots|
    ensures LiveInv(x, v, live) ==> SlotInv(x, v, live.slots[j])
  {
    hide SlotInv, DistinctSlots, SerialSlots, CountsInv, ExecutingSlots;
  }

  lemma SameRunGrows(events: seq<Event>, m: nat, k: nat)
    requires 0 < k <= |events| && !events[k - 1].Launch?
    ensures SameRun(events, m, k) <==> m == k - 1 || SameRun(events, m, k - 1)
  {
  }

  lemma LeftGrows(events: seq<Event>, k: nat, i: nat, kind: Leftover)
    requires 0 < k <= |events| && !events[k - 1].Launch?
    ensures LeftBefore(events, k, i, kind) <==>
      LeftBefore(events, k - 1, i, kind) || LeavesAt(events[k - 1], i, kind)
  {
    hide LeavesAt, SameRun;
    forall m: nat
      ensures SameRun(events, m, k) <==> m == k - 1 || SameRun(events, m, k - 1)
    {
      SameRunGrows(events, m, k);
    }
    if LeftBefore(events, k - 1, i, kind) {
      var m :| 0 <= m < k - 1 && SameRun(events, m, k - 1) && LeavesAt(events[m], i, kind);
      assert SameRun(events, m, k);
    }
    assert SameRun(events, k - 1, k);
  }

  /** What is left behind in a live run is exactly what its executors have left behind since its launch. */
  lemma {:induction false} LeftExactly(x: string, worlds: seq<World>, events: seq<Event>, k: nat, j: nat, kind: Leftover)
    requires IsHistory(x, worlds, events) && k < |worlds| && worlds[k].live.Some? && j < |worlds[k].live.value.slots|
    ensures IsLeft(worlds[k].store, worlds[k].live.value.slots[j], kind) <==> LeftBefore(events, k, j, kind)
  {
    hide WorldInv, Enabled, Next, LeavesAt, LeftBefore, IsLeft;
    assert k > 0;
    var w, e := worlds[k - 1], events[k - 1];
    HistoryInv(x, worlds, events, k - 1);
    assert Enabled(w, e) && worlds[k] == Next(w, e);
    if e.Launch? {
      NothingLeftAtLaunch(w, e, j, kind);
      NothingBeforeLaunch(events, k, j, kind);
    } else {
      SlotsStay(w, e);
      StepLeaves(w, e, j, kind);
      LeftGrows(events, k, j, kind);
      LeftExactly(x, worlds, events, k - 1, j, kind);
    }
  }

  lemma SlotsStay(w: World, e: Event)
    requires Enabled(w, e) && Next(w, e).live.Some? && !e.Launch?
    ensures w.live.Some? && |Next(w, e).live.value.slots| == |w.live.value.slots|
  {
    hide Register, MarkRunning, Finish, OthersOnly;
    if e.AbandonRest? {
      AbandoningStays(w.store, w.live.value, 0);
    }
  }

  lemma {:induction false} AbandoningStays(v: Evaluations, live: Live, i: nat)
    ensures |Abandon(v, live, i).1.slots| == |live.slots|
    decreases |live.slots| - i
  {
    if i < |live.slots| {
      var (v', live') := AbandonOne(v, live, i);
      AbandoningStays(v', live', i + 1);
    }
  }

  lemma NothingLeftAtLaunch(w: World, e: Event, j: nat, kind: Leftover)
    requires Enabled(w, e) && e.Launch? && j < |Next(w, e).live.value.slots|
    ensures !IsLeft(Next(w, e).store, Next(w, e).live.value.slots[j], kind)
  {
  }

  lemma NothingBeforeLaunch(events: seq<Event>, k: nat, i: nat, kind: Leftover)
    requires 0 < k <= |events| && events[k - 1].Launch?
    ensures !LeftBefore(events, k, i, kind)
  {
  }

  /** The slots left so in the run live after `k` events. */
  function LeftSlots(events: seq<Event>, k: nat, slots: seq<Slot>, kind: Leftover): set<nat> {
    set i: nat | i < |slots| && LeftBefore(events, k, i, kind)
  }

  /** No executor of the run live after `k` events has left its attempt so. */
  predicate NoneLeft(events: seq<Event>, k: nat, kind: Leftover) {
    forall m | 0 <= m < k :: SameRun(events, m, k) && events[m].Answer? ==> !Leaves(events[m].reply, kind)
  }

  /** Whoever answers in a run has a slot of it. */
  lemma {:induction false} AnswersInSlots(x: string, worlds: seq<World>, events: seq<Event>, m: nat, k: nat)
    requires IsHistory(x, worlds, events) && k < |worlds| && worlds[k].live.Some?
    requires SameRun(events, m, k) && events[m].Answer?
    ensures events[m].i < |worlds[k].live.value.slots|
  {
    hide WorldInv, Enabled, Next;
    var w, e := worlds[k - 1], events[k - 1];
    HistoryInv(x, worlds, events, k - 1);
    assert Enabled(w, e) && worlds[k] == Next(w, e);
    SlotsStay(w, e);
    if m == k - 1 {
      AnswererHasSlot(w, e);
    } else {
      AnswersInSlots(x, worlds, events, m, k - 1);
    }
  }

  lemma AnswererHasSlot(w: World, e: Event)
    requires Enabled(w, e) && e.Answer?
    ensures w.live.Some? && e.i < |w.live.value.slots|
  {
  }

  lemma NoneLeftMeans(x: string, worlds: seq<World>, events: seq<Event>, k: nat, kind: Leftover)
    requires IsHistory(x, worlds, events) && k < |worlds| && worlds[k].live.Some?
    ensures NoneLeft(events, k, kind) <==> LeftSlots(events, k, worlds[k].live.value.slots, kind) == {}
  {
    assert |worlds| == |events| + 1;
    hide IsHistory, Leaves;
    var slots := worlds[k].live.value.slots;
    if m :| 0 <= m < k && SameRun(events, m, k) && events[m].Answer? && Leaves(events[m].reply, kind) {
      AnswersInSlots(x, worlds, events, m, k);
      assert LeavesAt(events[m], events[m].i, kind);
      assert LeftBefore(events, k, events[m].i, kind);
      assert events[m].i in LeftSlots(events, k, slots, kind);
    }
  }

  // ---- bounded and serial ----

  /** The stored RUNNING attempts of a live run are those executing and those that executors of this run
      left so: at most `concurrency` of the first kind. */
  lemma RunningCount(x: string, worlds: seq<World>, events: seq<Event>, k: nat)
    requires IsHistory(x, worlds, events) && k < |worlds| && worlds[k].live.Some?
    ensures var v, live := worlds[k].store, worlds[k].live.value;
      && StoredWith(v, live.slots, Running)
           == ExecutingSlots(live.slots) + LeftSlots(events, k, live.slots, AsRunning)
      && ExecutingSlots(live.slots) !! LeftSlots(events, k, live.slots, AsRunning)
      && |StoredWith(v, live.slots, Running)|
           == |ExecutingSlots(live.slots)| + |LeftSlots(events, k, live.slots, AsRunning)|
      && |ExecutingSlots(live.slots)| <= live.concurrency
  {
    var v, live := worlds[k].store, worlds[k].live.value;
    LiveAt(x, worlds, events, k);
    assert |ExecutingSlots(live.slots)| <= live.concurrency;
    hide IsHistory, RecordsInv, LeftBefore, LiveInv;
    var a, b, c := ExecutingSlots(live.slots), LeftSlots(events, k, live.slots, AsRunning), StoredWith(v, live.slots, Running);
    forall i: nat | i < |live.slots|
      ensures i in c <==> i in a || i in b
      ensures !(i in a && i in b)
    {
      LeftExactly(x, worlds, events, k, i, AsRunning);
      SlotOfLive(x, v, live, i);
      WhetherRunning(x, v, live.slots[i]);
    }
    assert c == a + b;
    hide *;
    assert a !! b;
  }

  lemma WhetherRunning(x: string, v: Evaluations, s: Slot)
    requires SlotInv(x, v, s)
    ensures (s.attempt.id in v.attempts && v.attempts[s.attempt.id].status == Running)
      <==> s.phase == Executing || IsLeft(v, s, AsRunning)
  {
    hide NextUp, IsLast;
  }

  /** In a live run every RUNNING attempt is an executing one if and only if, since the launch, no executor
      has raised a state conflict or a cancellation, answered what the store refuses, or answered RUNNING;
      then they number at most `concurrency` and no two are of one task. Any such answer, as long as the
      run lives, keeps an attempt RUNNING that executes no longer. */
  lemma BoundedAndSerial(x: string, worlds: seq<World>, events: seq<Event>, k: nat)
    requires IsHistory(x, worlds, events) && k < |worlds| && worlds[k].live.Some?
    ensures var v, live := worlds[k].store, worlds[k].live.value;
      && (StoredWith(v, live.slots, Running) == ExecutingSlots(live.slots) <==> NoneLeft(events, k, AsRunning))
      && (NoneLeft(events, k, AsRunning) ==>
           && |StoredWith(v, live.slots, Running)| <= live.concurrency
           && forall i, j | i in StoredWith(v, live.slots, Running) && j in StoredWith(v, live.slots, Running) ::
                live.slots[i].attempt.episode.task == live.slots[j].attempt.episode.task ==> i == j)
      && (forall m | 0 <= m < k :: SameRun(events, m, k) && events[m].Answer? && Leaves(events[m].reply, AsRunning) ==>
           events[m].i in StoredWith(v, live.slots, Running) - ExecutingSlots(live.slots))
  {
    var v, live := worlds[k].store, worlds[k].live.value;
    var running := StoredWith(v, live.slots, Running);
    RunningCount(x, worlds, events, k);
    NoneLeftMeans(x, worlds, events, k, AsRunning);
    LiveAt(x, worlds, events, k);
    assert SerialSlots(live);
    hide IsHistory, RecordsInv, LiveInv, Leaves, SameRun, SerialSlots, StoredWith, ExecutingSlots, NoneLeft;
    if NoneLeft(events, k, AsRunning) {
      assert running == ExecutingSlots(live.slots);
      forall i, j | i in running && j in running
        && live.slots[i].attempt.episode.task == live.slots[j].attempt.episode.task
        ensures i == j
      {
        if i != j {
          SerialPair(v, live, i, j);
        }
      }
    }
    forall m | 0 <= m < k && SameRun(events, m, k) && events[m].Answer? && Leaves(events[m].reply, AsRunning)
      ensures events[m].i in running - ExecutingSlots(live.slots)
    {
      AnswersInSlots(x, worlds, events, m, k);
      assert LeavesAt(events[m], events[m].i, AsRunning);
      assert LeftBefore(events, k, events[m].i, AsRunning);
      assert events[m].i in LeftSlots(events, k, live.slots, AsRunning);
    }
  }

  lemma SerialPair(v: Evaluations, live: Live, i: nat, j: nat)
    requires SerialSlots(live) && i in ExecutingSlots(live.slots) && j in ExecutingSlots(live.slots) && i != j
    requires |ExecutingSlots(live.slots)| <= live.concurrency
    ensures live.slots[i].attempt.episode.task != live.slots[j].attempt.episode.task
  {
    SubsetSize({i, j}, ExecutingSlots(live.slots));
  }

  lemma {:induction false} SubsetSize(a: set<nat>, b: set<nat>)
    requires a <= b
    ensures |a| <= |b|
  {
    if a != {} {
      var x :| x in a;
      SubsetSize(a - {x}, b - {x});
    }
  }

  // ---- the summary ----

  /** When the run returns, a stored attempt is a counted one or, if RUNNING, one whose executor raised a
      cancellation of itself. */
  lemma StoredAtReturn(x: string, worlds: seq<World>, events: seq<Event>, k: nat, s: Status)
    requires IsHistory(x, worlds, events) && k < |worlds| && worlds[k].live.Some?
    requires ReturnsSummary(worlds[k].live.value)
    ensures var v, live := worlds[k].store, worlds[k].live.value;
      |StoredWith(v, live.slots, s)| == CountOf(live.counts, s)
        + if s == Running then |LeftSlots(events, k, live.slots, AsCancelled)| else 0
  {
    var v, live := worlds[k].store, worlds[k].live.value;
    LiveAt(x, worlds, events, k);
    assert CountsInv(v, live);
    var a, b, c := FinishedWith(v, live.slots, s), LeftSlots(events, k, live.slots, AsCancelled), StoredWith(v, live.slots, s);
    assert |a| == CountOf(live.counts, s);
    hide *;
    forall i: nat
      ensures i in a || i in b || i in c ==> i < |live.slots|
      ensures i < |live.slots| ==> (i in c <==> i in a || (s == Running && i in b)) && !(i in a && i in b)
    {
      SlotsAreBelow(v, live.slots, events, k, s, i);
      if i < |live.slots| {
        LeftExactly(x, worlds, events, k, i, AsCancelled);
        SlotOfLive(x, v, live, i);
        WhereStored(x, v, live, events, k, i, s);
      }
    }
    SplitSize(a, b, c, s == Running, |live.slots|);
  }

  lemma SlotsAreBelow(v: Evaluations, slots: seq<Slot>, events: seq<Event>, k: nat, s: Status, i: nat)
    ensures i in FinishedWith(v, slots, s) || i in LeftSlots(events, k, slots, AsCancelled) || i in StoredWith(v, slots, s)
      ==> i < |slots|
  {
    hide LeftBefore;
  }

  lemma WhereStored(x: string, v: Evaluations, live: Live, events: seq<Event>, k: nat, i: nat, s: Status)
    requires i < |live.slots| && SlotInv(x, v, live.slots[i]) && ReturnsSummary(live)
    requires IsLeft(v, live.slots[i], AsCancelled) <==> LeftBefore(events, k, i, AsCancelled)
    ensures var a, b := FinishedWith(v, live.slots, s), LeftSlots(events, k, live.slots, AsCancelled);
      && (i in StoredWith(v, live.slots, s) <==> i in a || (s == Running && i in b))
      && !(i in a && i in b)
  {
    PhaseAtReturn(x, v, live, i);
    hide LeftBefore, SlotInv, ReturnsSummary;
  }

  lemma SplitSize(a: set<nat>, b: set<nat>, c: set<nat>, both: bool, n: nat)
    requires forall i: nat :: i in a || i in b || i in c ==> i < n
    requires forall i: nat | i < n :: (i in c <==> i in a || (both && i in b)) && !(i in a && i in b)
    ensures |c| == |a| + if both then |b| else 0
  {
    assert a !! b;
    assert c == if both then a + b else a;
  }

  lemma PhaseAtReturn(x: string, v: Evaluations, live: Live, i: nat)
    requires i < |live.slots| && SlotInv(x, v, live.slots[i]) && ReturnsSummary(live)
    ensures live.slots[i].phase in {Finished, Skipped, Cancelled}
    ensures live.slots[i].phase == Skipped <==> live.slots[i].attempt.id !in v.attempts
    ensures live.slots[i].phase == Cancelled ==> v.attempts[live.slots[i].attempt.id].status == Running
  {
    hide NextUp, IsLast;
    assert live.slots[i] in live.slots;
  }

  /** The executor's end leaves a record for good: no cancellation raised of itself, and no recorded outcome
      that is pending or running. */
  predicate Settles(reply: Reply) {
    && !reply.ThrewCancelled?
    && (reply.Gave? && Storable(reply.outcome) ==> reply.outcome.status != Pending && reply.outcome.status != Running)
  }

  /** Every executor of the run live after `k` events settled its attempt. */
  predicate AllSettled(events: seq<Event>, k: nat) {
    forall m | 0 <= m < k :: SameRun(events, m, k) && events[m].Answer? ==> Settles(events[m].reply)
  }

  lemma AllSettledMeans(events: seq<Event>, k: nat)
    requires NoneLeft(events, k, AsRaised)
    ensures AllSettled(events, k) <==> NoneLeft(events, k, AsPending) && NoneLeft(events, k, AsRunning)
  {
    hide SameRun;
  }

  lemma NoneRaisedAtReturn(x: string, worlds: seq<World>, events: seq<Event>, k: nat)
    requires IsHistory(x, worlds, events) && k < |worlds| && worlds[k].live.Some?
    requires ReturnsSummary(worlds[k].live.value)
    ensures NoneLeft(events, k, AsRaised)
  {
    var v, slots := worlds[k].store, worlds[k].live.value.slots;
    NoneLeftMeans(x, worlds, events, k, AsRaised);
    hide IsHistory, LeftBefore;
    forall i: nat | i < |slots|
      ensures !LeftBefore(events, k, i, AsRaised)
    {
      LeftExactly(x, worlds, events, k, i, AsRaised);
      assert slots[i] in slots;
    }
  }

  /** At a return nothing is pending or running if and only if every executor settled its attempt. */
  lemma SettledExactly(x: string, worlds: seq<World>, events: seq<Event>, k: nat)
    requires IsHistory(x, worlds, events) && k < |worlds| && worlds[k].live.Some?
    requires ReturnsSummary(worlds[k].live.value)
    ensures var v, slots := worlds[k].store, worlds[k].live.value.slots;
      StoredWith(v, slots, Pending) == {} && StoredWith(v, slots, Running) == {} <==> AllSettled(events, k)
  {
    var v, slots := worlds[k].store, worlds[k].live.value.slots;
    RunningCount(x, worlds, events, k);
    NoneRaisedAtReturn(x, worlds, events, k);
    AllSettledMeans(events, k);
    NoneLeftMeans(x, worlds, events, k, AsRunning);
    NoneLeftMeans(x, worlds, events, k, AsPending);
    hide IsHistory, LeftBefore, NoneLeft, AllSettled;
    assert ExecutingSlots(slots) == {};
    forall i: nat | i < |slots|
      ensures i in StoredWith(v, slots, Pending) <==> i in LeftSlots(events, k, slots, AsPending)
    {
      LeftExactly(x, worlds, events, k, i, AsPending);
    }
    assert StoredWith(v, slots, Pending) == LeftSlots(events, k, slots, AsPending);
  }

  lemma ResultsOfSlots(x: string, v: Evaluations, live: Live)
    requires RecordsInv(x, v) && LiveInv(x, v, live)
    ensures forall i | 0 <= i < |live.slots| && live.slots[i].attempt.id in v.results ::
      live.slots[i].attempt.id in v.attempts && v.attempts[live.slots[i].attempt.id].status == Succeeded
  {
    hide NoGap, NoRepeat, TerminalLast, CountsInv, DistinctSlots, SerialSlots, NextUp, IsLast, ExecutingSlots;
    forall i | 0 <= i < |live.slots| && live.slots[i].attempt.id in v.results
      ensures live.slots[i].attempt.id in v.attempts && v.attempts[live.slots[i].attempt.id].status == Succeeded
    {
      assert SlotInv(x, v, live.slots[i]);
    }
  }

  /** Whenever `run` returns a summary, stopped or not: the count of each status is how many of the run's
      attempts are stored with it, except that attempts whose executor raised a cancellation are stored as
      running and not counted; nothing is pending or running if and only if every executor settled its
      attempt; every result belongs to a succeeded attempt; and the tasks that left before starting are
      those without a record. */
  lemma HonestSummary(x: string, worlds: seq<World>, events: seq<Event>, k: nat)
    requires IsHistory(x, worlds, events) && k < |worlds| && worlds[k].live.Some?
    requires ReturnsSummary(worlds[k].live.value)
    ensures var v, live := worlds[k].store, worlds[k].live.value;
      && (forall s: Status :: |StoredWith(v, live.slots, s)| == CountOf(live.counts, s)
            + if s == Running then |LeftSlots(events, k, live.slots, AsCancelled)| else 0)
      && ((forall s: Status :: |StoredWith(v, live.slots, s)| == CountOf(live.counts, s))
            <==> NoneLeft(events, k, AsCancelled))
      && (StoredWith(v, live.slots, Pending) == {} && StoredWith(v, live.slots, Running) == {} <==> AllSettled(events, k))
      && (forall i | 0 <= i < |live.slots| && live.slots[i].attempt.id in v.results ::
            live.slots[i].attempt.id in v.attempts && v.attempts[live.slots[i].attempt.id].status == Succeeded)
      && (forall i | 0 <= i < |live.slots| :: live.slots[i].phase == Skipped <==> live.slots[i].attempt.id !in v.attempts)
  {
    var v, live := worlds[k].store, worlds[k].live.value;
    LiveAt(x, worlds, events, k);
    NoneLeftMeans(x, worlds, events, k, AsCancelled);
    SettledExactly(x, worlds, events, k);
    hide IsHistory, AllSettled, NoGap, NoRepeat, TerminalLast, Leaves, SameRun;
    ResultsOfSlots(x, v, live);
    forall i | 0 <= i < |live.slots|
      ensures live.slots[i].phase == Skipped <==> live.slots[i].attempt.id !in v.attempts
    {
      PhaseAtReturn(x, v, live, i);
    }
    hide RecordsInv, LiveInv, FinishedWith, StoredWith, ReturnsSummary, SlotInv, ExecutingSlots, NoneLeft, LeftSlots;
    forall s: Status
      ensures |StoredWith(v, live.slots, s)| == CountOf(live.counts, s)
        + if s == Running then |LeftSlots(events, k, live.slots, AsCancelled)| else 0
    {
      StoredAtReturn(x, worlds, events, k, s);
    }
    assert |StoredWith(v, live.slots, Running)| == CountOf(live.counts, Running)
      + |LeftSlots(events, k, live.slots, AsCancelled)|;
  }

  function Attempted(counts: map<Status, nat>): nat {
    CountOf(counts, Pending) + CountOf(counts, Running) + CountOf(counts, Succeeded) + CountOf(counts, Failed)
      + CountOf(counts, InfrastructureError) + CountOf(counts, Interrupted)
  }

  function StoredIn(v: Evaluations, slots: seq<Slot>, statuses: set<Status>): set<nat> {
    set i: nat | i < |slots| && slots[i].attempt.id in v.attempts && v.attempts[slots[i].attempt.id].status in statuses
  }

  lemma OneMoreStatus(v: Evaluations, slots: seq<Slot>, statuses: set<Status>, s: Status)
    requires s !in statuses
    ensures |StoredIn(v, slots, statuses + {s})| == |StoredIn(v, slots, statuses)| + |StoredWith(v, slots, s)|
  {
    var a, b := StoredIn(v, slots, statuses), StoredWith(v, slots, s);
    assert StoredIn(v, slots, statuses + {s}) == a + b;
    assert a !! b;
  }

  lemma EveryStatusRegistered(v: Evaluations, slots: seq<Slot>)
    ensures Registered(v, slots)
      == StoredIn(v, slots, {} + {Pending} + {Running} + {Succeeded} + {Failed} + {InfrastructureError} + {Interrupted})
  {
    forall s: Status
      ensures s in {} + {Pending} + {Running} + {Succeeded} + {Failed} + {InfrastructureError} + {Interrupted}
    {
      match s
      case Pending | Running | Succeeded | Failed | InfrastructureError | Interrupted =>
    }
  }

  lemma RegisteredSplit(v: Evaluations, slots: seq<Slot>)
    ensures |Registered(v, slots)| == |StoredWith(v, slots, Pending)| + |StoredWith(v, slots, Running)|
      + |StoredWith(v, slots, Succeeded)| + |StoredWith(v, slots, Failed)|
      + |StoredWith(v, slots, InfrastructureError)| + |StoredWith(v, slots, Interrupted)|
  {
    assert StoredIn(v, slots, {}) == {};
    EveryStatusRegistered(v, slots);
    hide *;
    OneMoreStatus(v, slots, {}, Pending);
    OneMoreStatus(v, slots, {} + {Pending}, Running);
    OneMoreStatus(v, slots, {} + {Pending} + {Running}, Succeeded);
    OneMoreStatus(v, slots, {} + {Pending} + {Running} + {Succeeded}, Failed);
    OneMoreStatus(v, slots, {} + {Pending} + {Running} + {Succeeded} + {Failed}, InfrastructureError);
    OneMoreStatus(v, slots, {} + {Pending} + {Running} + {Succeeded} + {Failed} + {InfrastructureError}, Interrupted);
  }

  /** The attempted episodes of the summary are the attempts the run registered, without those whose
      executor raised a cancellation of itself. */
  lemma AttemptedIsRegistered(x: string, worlds: seq<World>, events: seq<Event>, k: nat)
    requires IsHistory(x, worlds, events) && k < |worlds| && worlds[k].live.Some?
    requires ReturnsSummary(worlds[k].live.value)
    ensures var v, live := worlds[k].store, worlds[k].live.value;
      && Attempted(live.counts) + |LeftSlots(events, k, live.slots, AsCancelled)| == |Registered(v, live.slots)|
      && (Attempted(live.counts) == |Registered(v, live.slots)| <==> NoneLeft(events, k, AsCancelled))
  {
    var v, live := worlds[k].store, worlds[k].live.value;
    HonestSummary(x, worlds, events, k);
    NoneLeftMeans(x, worlds, events, k, AsCancelled);
    hide IsHistory, ReturnsSummary, StoredWith, Registered, CountOf, LeftSlots, NoneLeft, AllSettled;
    RegisteredSplit(v, live.slots);
  }

  // ---- where the promises stop ----

  const BOTH_MODES := Config([Episode("t", 'a'), Episode("t", 'c')], 1)

  function LaunchBoth(): Event {
    Launch(BOTH_MODES, 0, [1, 2], BOTH_MODES.episodes, map[], 2, false)
  }

  lemma LaunchBothEnabled(x: string)
    ensures Enabled(Start(x, EMPTY), LaunchBoth())
    ensures Next(Start(x, EMPTY), LaunchBoth()) == World(x, EMPTY, Some(Live(0, 1, BothSlots(x, Waiting, Waiting), map[], false)))
  {
    assert CompletedTasks(EMPTY, x) == {};
    assert IsUnfinished(EMPTY, x, map[]);
    var queue := BOTH_MODES.episodes;
    TaskQueue.NothingCompleted(queue);
    assert queue[0] != queue[1];
    assert NewSlots(x, 0, map[], queue, [1, 2])[..2] == BothSlots(x, Waiting, Waiting);
  }

  function BothSlots(x: string, first: Phase, second: Phase): seq<Slot> {
    [Slot(Attempt(1, 0, x, Episode("t", 'a'), 1, Pending, None), first),
     Slot(Attempt(2, 0, x, Episode("t", 'c'), 1, Pending, None), second)]
  }

  function BothStored(x: string, first: Status, second: Status): Evaluations {
    Evaluations(map[],
      map[1 := Attempt(1, 0, x, Episode("t", 'a'), 1, first, None), 2 := Attempt(2, 0, x, Episode("t", 'c'), 1, second, None)],
      map[])
  }

  function FirstStored(x: string, first: Status): Evaluations {
    Evaluations(map[], map[1 := Attempt(1, 0, x, Episode("t", 'a'), 1, first, None)], map[])
  }

  lemma NoneExecuting(x: string, first: Phase)
    requires first != Executing
    ensures ExecutingSlots(BothSlots(x, first, Waiting)) == {}
  {
  }

  /** A runner-level error gives the semaphore back while its attempt is still stored as running: with
      concurrency one, both modes of one task are then RUNNING at once. */
  lemma ConflictBreaksSerial(x: string) returns (worlds: seq<World>, events: seq<Event>)
    ensures IsHistory(x, worlds, events)
    ensures var w := worlds[|worlds| - 1];
      && w.live.Some? && w.live.value.concurrency == 1 && |w.live.value.slots| == 2
      && |StoredWith(w.store, w.live.value.slots, Running)| == 2
      && w.live.value.slots[0].attempt.episode.task == w.live.value.slots[1].attempt.episode.task
  {
    var w0 := Start(x, EMPTY);
    var w1 := World(x, EMPTY, Some(Live(0, 1, BothSlots(x, Waiting, Waiting), map[], false)));
    var w2 := World(x, FirstStored(x, Running), Some(Live(0, 1, BothSlots(x, Executing, Waiting), map[], false)));
    var w3 := World(x, FirstStored(x, Running), Some(Live(0, 1, BothSlots(x, Raised, Waiting), map[], false)));
    var w4 := World(x, BothStored(x, Running, Running), Some(Live(0, 1, BothSlots(x, Raised, Executing), map[], false)));
    worlds, events := [w0, w1, w2, w3, w4], [LaunchBoth(), Acquire(0), Answer(0, ThrewConflict), Acquire(1)];
    hide Enabled, Next, StoredWith, BothStored, FirstStored, LaunchBoth;
    BothRunning(x);
    FirstConflicts(x, w2, w3);
    LaunchBothEnabled(x);
    FirstAcquires(x, w1, w2);
    SecondAcquires(x, w3, w4, Running);
    assert forall i | 0 <= i < 4 :: Enabled(worlds[i], events[i]) && worlds[i + 1] == Next(worlds[i], events[i]);
  }

  lemma BothRunning(x: string)
    ensures StoredWith(BothStored(x, Running, Running), BothSlots(x, Raised, Executing), Running) == {0, 1}
  {
  }

  lemma FirstConflicts(x: string, w: World, w': World)
    requires w == World(x, FirstStored(x, Running), Some(Live(0, 1, BothSlots(x, Executing, Waiting), map[], false)))
    requires w' == World(x, FirstStored(x, Running), Some(Live(0, 1, BothSlots(x, Raised, Waiting), map[], false)))
    ensures Enabled(w, Answer(0, ThrewConflict)) && Next(w, Answer(0, ThrewConflict)) == w'
  {
    assert Move(w.live.value.slots, 0, Raised) == w'.live.value.slots;
  }

  lemma FirstAcquires(x: string, w: World, w': World)
    requires w == World(x, EMPTY, Some(Live(0, 1, BothSlots(x, Waiting, Waiting), map[], false)))
    requires w' == World(x, FirstStored(x, Running), Some(Live(0, 1, BothSlots(x, Executing, Waiting), map[], false)))
    ensures Enabled(w, Acquire(0)) && Next(w, Acquire(0)) == w'
  {
    NoneExecuting(x, Waiting);
    assert Move(w.live.value.slots, 0, Executing) == w'.live.value.slots;
    BeginFiles(w.store, w.live.value, 0);
  }

  lemma SecondAcquires(x: string, w: World, w': World, first: Status)
    requires w == World(x, FirstStored(x, first), Some(Live(0, 1, BothSlots(x, Raised, Waiting), map[], false)))
    requires w' == World(x, BothStored(x, first, Running), Some(Live(0, 1, BothSlots(x, Raised, Executing), map[], false)))
    ensures Enabled(w, Acquire(1)) && Next(w, Acquire(1)) == w'
  {
    NoneExecuting(x, Raised);
    assert !SameSlot(w.store.attempts[1], w.live.value.slots[1].attempt);
    assert Move(w.live.value.slots, 1, Executing) == w'.live.value.slots;
    BeginFiles(w.store, w.live.value, 1);
  }

  const ONE := Config([Episode("t", 'a')], 1)

  function LaunchOne(): Event {
    Launch(ONE, 0, [1], ONE.episodes, map[], 1, false)
  }

  function OneSlot(x: string, phase: Phase): seq<Slot> {
    [Slot(Attempt(1, 0, x, Episode("t", 'a'), 1, Pending, None), phase)]
  }

  function OneWorld(x: string, v: Evaluations, phase: Phase, counts: map<Status, nat>): World {
    World(x, v, Some(Live(0, 1, OneSlot(x, phase), counts, false)))
  }

  lemma OneLaunches(x: string)
    ensures Enabled(Start(x, EMPTY), LaunchOne())
    ensures Next(Start(x, EMPTY), LaunchOne()) == OneWorld(x, EMPTY, Waiting, map[])
  {
    assert CompletedTasks(EMPTY, x) == {};
    assert IsUnfinished(EMPTY, x, map[]);
    TaskQueue.NothingCompleted(ONE.episodes);
    assert NewSlots(x, 0, map[], ONE.episodes, [1])[..1] == OneSlot(x, Waiting);
  }

  lemma OneAcquires(x: string)
    ensures var w := OneWorld(x, EMPTY, Waiting, map[]);
      Enabled(w, Acquire(0)) && Next(w, Acquire(0)) == OneWorld(x, FirstStored(x, Running), Executing, map[])
  {
    var w := OneWorld(x, EMPTY, Waiting, map[]);
    assert ExecutingSlots(w.live.value.slots) == {};
    assert Move(w.live.value.slots, 0, Executing) == OneSlot(x, Executing);
    BeginFiles(w.store, w.live.value, 0);
  }

  lemma OneAnswersRunning(x: string)
    ensures var w, e := OneWorld(x, FirstStored(x, Running), Executing, map[]), Answer(0, Gave(Outcome(Running, None, None)));
      Enabled(w, e) && Next(w, e) == OneWorld(x, FirstStored(x, Running), Finished, map[Running := 1])
  {
    var w := OneWorld(x, FirstStored(x, Running), Executing, map[]);
    assert Move(w.live.value.slots, 0, Finished) == OneSlot(x, Finished);
    assert w.store.attempts[1 := w.store.attempts[1]] == w.store.attempts;
    assert Finish(w.store, 1, Outcome(Running, None, None)) == Ok(w.store);
  }

  lemma OneIsCancelled(x: string)
    ensures var w, e := OneWorld(x, FirstStored(x, Running), Executing, map[]), Answer(0, ThrewCancelled);
      Enabled(w, e) && Next(w, e) == OneWorld(x, FirstStored(x, Running), Cancelled, map[])
  {
    assert Move(OneSlot(x, Executing), 0, Cancelled) == OneSlot(x, Cancelled);
  }

  /** An executor that raises a cancellation of itself, by awaiting a task of its own that was cancelled: the
      run returns an empty summary while its one attempt is stored as running. */
  lemma CancelledIsMissed(x: string) returns (worlds: seq<World>, events: seq<Event>)
    ensures IsHistory(x, worlds, events)
    ensures var w := worlds[|worlds| - 1];
      && w.live.Some? && ReturnsSummary(w.live.value) && w.live.value.counts == map[]
      && StoredWith(w.store, w.live.value.slots, Running) == {0}
  {
    var w3 := OneWorld(x, FirstStored(x, Running), Cancelled, map[]);
    worlds := [Start(x, EMPTY), OneWorld(x, EMPTY, Waiting, map[]), OneWorld(x, FirstStored(x, Running), Executing, map[]), w3];
    events := [LaunchOne(), Acquire(0), Answer(0, ThrewCancelled)];
    assert StoredWith(w3.store, w3.live.value.slots, Running) == {0};
    assert ReturnsSummary(w3.live.value);
    hide Enabled, Next, StoredWith, ReturnsSummary, OneWorld, LaunchOne;
    OneLaunches(x);
    OneAcquires(x);
    OneIsCancelled(x);
    assert forall i | 0 <= i < 3 :: Enabled(worlds[i], events[i]) && worlds[i + 1] == Next(worlds[i], events[i]);
  }

  /** An executor that answers with a status that is not final is believed: the run returns its summary
      while one of its attempts is still stored as running. */
  lemma RunningAtReturn(x: string) returns (worlds: seq<World>, events: seq<Event>)
    ensures IsHistory(x, worlds, events)
    ensures var w := worlds[|worlds| - 1];
      w.live.Some? && ReturnsSummary(w.live.value) && StoredWith(w.store, w.live.value.slots, Running) != {}
  {
    var w3 := OneWorld(x, FirstStored(x, Running), Finished, map[Running := 1]);
    worlds := [Start(x, EMPTY), OneWorld(x, EMPTY, Waiting, map[]), OneWorld(x, FirstStored(x, Running), Executing, map[]), w3];
    events := [LaunchOne(), Acquire(0), Answer(0, Gave(Outcome(Running, None, None)))];
    assert 0 in StoredWith(w3.store, w3.live.value.slots, Running);
    assert ReturnsSummary(w3.live.value);
    hide Enabled, Next, StoredWith, ReturnsSummary, OneWorld, LaunchOne;
    OneLaunches(x);
    OneAcquires(x);
    OneAnswersRunning(x);
    assert forall i | 0 <= i < 3 :: Enabled(worlds[i], events[i]) && worlds[i + 1] == Next(worlds[i], events[i]);
  }
}
