/** What the evaluation runner guarantees over whole histories of runs, stops, crashes and resumes. */
module RunnerTheorems {
  import opened Common
  import opened EvaluationStore
  import opened EvaluationRunner
  import opened RunnerInvariants
  import opened RunnerSafety
  import TaskQueue

  // ---- attempt numbers ----

  function AttemptsOf(v: Evaluations, x: string, e: Episode): set<nat> {
    set id | id in v.attempts && Of(v.attempts[id], x, e)
  }

  function UpTo(n: nat): set<nat> {
    if n == 0 then {} else UpTo(n - 1) + {n}
  }

  lemma {:induction false} UpToHolds(n: nat)
    ensures |UpTo(n)| == n && forall k :: k in UpTo(n) <==> 1 <= k <= n
  {
    if n > 0 {
      UpToHolds(n - 1);
    }
  }

  lemma {:induction false} NumbersDownward(x: string, v: Evaluations, e: Episode, m: nat, k: nat)
    requires NoGap(x, v) && HasNumber(v, x, e, m) && 1 <= k <= m
    ensures HasNumber(v, x, e, k)
  {
    if k < m {
      var id :| id in v.attempts && Of(v.attempts[id], x, e) && v.attempts[id].number == m;
      assert HasNumber(v, x, v.attempts[id].episode, m - 1);
      NumbersDownward(x, v, e, m - 1, k);
    }
  }

  /** Counting the attempts of a task by their numbers: `ids` has as many elements as numbers. */
  lemma {:induction false} NumbersSize(x: string, v: Evaluations, e: Episode, ids: set<nat>, numbers: set<nat>)
    requires NoRepeat(x, v) && ids <= AttemptsOf(v, x, e)
    requires forall id <- ids :: v.attempts[id].number in numbers
    requires forall n <- numbers :: exists id <- ids :: v.attempts[id].number == n
    ensures |ids| == |numbers|
    decreases ids
  {
    if ids != {} {
      var id :| id in ids;
      var n := v.attempts[id].number;
      forall other <- ids - {id}
        ensures v.attempts[other].number != n
      {
        assert SameTask(x, v.attempts[id], v.attempts[other]);
      }
      NumbersSize(x, v, e, ids - {id}, numbers - {n});
    }
  }

  lemma {:induction false} HighestNumber(v: Evaluations, x: string, e: Episode, ids: set<nat>) returns (top: nat)
    requires ids <= AttemptsOf(v, x, e) && ids != {}
    ensures top in ids && forall id <- ids :: v.attempts[id].number <= v.attempts[top].number
    decreases ids
  {
    top :| top in ids;
    if ids != {top} {
      var rest := HighestNumber(v, x, e, ids - {top});
      if v.attempts[rest].number > v.attempts[top].number {
        top := rest;
      }
    }
  }

  lemma HasNumberOf(v: Evaluations, x: string, e: Episode, n: nat)
    ensures HasNumber(v, x, e, n) <==> exists id <- AttemptsOf(v, x, e) :: v.attempts[id].number == n
  {
    if HasNumber(v, x, e, n) {
      var id :| id in v.attempts && Of(v.attempts[id], x, e) && v.attempts[id].number == n;
      assert id in AttemptsOf(v, x, e);
    }
  }

  /** The highest number of a task is how many attempts it has. */
  lemma HighestIsCount(x: string, v: Evaluations, e: Episode, top: nat)
    requires NoGap(x, v) && NoRepeat(x, v) && top in AttemptsOf(v, x, e)
    requires forall id <- AttemptsOf(v, x, e) :: v.attempts[id].number <= v.attempts[top].number
    ensures v.attempts[top].number == |AttemptsOf(v, x, e)|
  {
    var ids, m := AttemptsOf(v, x, e), v.attempts[top].number;
    HasNumberOf(v, x, e, m);
    UpToHolds(m);
    assert forall id <- ids :: v.attempts[id].number in UpTo(m);
    hide HasNumber, NoGap, NoRepeat, AttemptsOf, UpTo;
    forall k <- UpTo(m)
      ensures exists id <- ids :: v.attempts[id].number == k
    {
      NumbersDownward(x, v, e, m, k);
      HasNumberOf(v, x, e, k);
    }
    NumbersSize(x, v, e, ids, UpTo(m));
  }

  /** The attempt numbers of a task are exactly 1..n, n being how many attempts it has. */
  lemma NumbersAreExact(x: string, v: Evaluations, e: Episode, n: nat)
    requires NoGap(x, v) && NoRepeat(x, v)
    ensures HasNumber(v, x, e, n) <==> 1 <= n <= |AttemptsOf(v, x, e)|
  {
    var ids := AttemptsOf(v, x, e);
    HasNumberOf(v, x, e, n);
    if ids != {} {
      var top := HighestNumber(v, x, e, ids);
      HighestIsCount(x, v, e, top);
      HasNumberOf(v, x, e, v.attempts[top].number);
      assert forall id <- ids :: v.attempts[id].number >= 1;
      hide HasNumber, NoGap, NoRepeat, AttemptsOf;
      if 1 <= n <= |ids| {
        NumbersDownward(x, v, e, v.attempts[top].number, n);
      }
    }
  }

  /** Over any history the attempts of a task are numbered 1..n without gap or repetition, across runs,
      and at most one of them, the one numbered n, is succeeded or failed. */
  lemma AttemptsAreNumbered(x: string, worlds: seq<World>, events: seq<Event>, k: nat, e: Episode)
    requires IsHistory(x, worlds, events) && k < |worlds|
    ensures var v := worlds[k].store;
      && (forall n: nat :: HasNumber(v, x, e, n) <==> 1 <= n <= |AttemptsOf(v, x, e)|)
      && (forall a, b | a in AttemptsOf(v, x, e) && b in AttemptsOf(v, x, e) ::
            v.attempts[a].number == v.attempts[b].number ==> a == b)
      && (forall a <- AttemptsOf(v, x, e) :: IsTerminal(v.attempts[a].status) ==>
            v.attempts[a].number == |AttemptsOf(v, x, e)|)
  {
    var v := worlds[k].store;
    hide IsHistory;
    assert RecordsInv(x, v) by {
      hide LiveInv, RecordsInv;
      HistoryInv(x, worlds, events, k);
    }
    hide HasNumber, NoGap;
    forall n: nat
      ensures HasNumber(v, x, e, n) <==> 1 <= n <= |AttemptsOf(v, x, e)|
    {
      NumbersAreExact(x, v, e, n);
    }
    NumberedUniquely(x, v, e);
    forall a <- AttemptsOf(v, x, e) | IsTerminal(v.attempts[a].status)
      ensures v.attempts[a].number == |AttemptsOf(v, x, e)|
    {
      TerminalIsNumberedLast(x, v, e, a);
    }
  }

  lemma NumberedUniquely(x: string, v: Evaluations, e: Episode)
    requires NoRepeat(x, v)
    ensures forall a, b | a in AttemptsOf(v, x, e) && b in AttemptsOf(v, x, e) ::
      v.attempts[a].number == v.attempts[b].number ==> a == b
  {
    forall a, b | a in AttemptsOf(v, x, e) && b in AttemptsOf(v, x, e) && v.attempts[a].number == v.attempts[b].number
      ensures a == b
    {
      assert SameTask(x, v.attempts[a], v.attempts[b]);
    }
  }

  lemma TerminalIsNumberedLast(x: string, v: Evaluations, e: Episode, a: nat)
    requires NoGap(x, v) && NoRepeat(x, v) && TerminalLast(x, v)
    requires a in AttemptsOf(v, x, e) && IsTerminal(v.attempts[a].status)
    ensures v.attempts[a].number == |AttemptsOf(v, x, e)|
  {
    var n := |AttemptsOf(v, x, e)|;
    assert HasNumber(v, x, e, v.attempts[a].number);
    NumbersAreExact(x, v, e, v.attempts[a].number);
    NumbersAreExact(x, v, e, n);
    var last :| last in v.attempts && Of(v.attempts[last], x, e) && v.attempts[last].number == n;
    assert SameTask(x, v.attempts[a], v.attempts[last]);
  }

  // ---- recovery ----

  /** Records stay, terminal ones unchanged with their results, and a completed task gets no attempt. */
  ghost predicate Recovers(x: string, v: Evaluations, v': Evaluations) {
    && (forall id <- v.attempts :: v.attempts[id].experiment == x ==>
          && id in v'.attempts && SameIdentity(v.attempts[id], v'.attempts[id])
          && (IsTerminal(v.attempts[id].status) ==> v'.attempts[id] == v.attempts[id]))
    && (forall id <- v'.attempts :: v'.attempts[id].experiment == x ==>
          || (id in v.attempts && v.attempts[id].experiment == x)
          || NotCompleted(x, v, v'.attempts[id].episode))
    && (forall id <- v.results :: id in v.attempts && v.attempts[id].experiment == x ==>
          id in v'.results && v'.results[id] == v.results[id])
  }

  ghost predicate NotCompleted(x: string, v: Evaluations, e: Episode) {
    forall id <- v.attempts :: Of(v.attempts[id], x, e) ==> !IsTerminal(v.attempts[id].status)
  }

  lemma RecoversTransitively(x: string, u: Evaluations, v: Evaluations, w: Evaluations)
    requires Recovers(x, u, v) && Recovers(x, v, w)
    ensures Recovers(x, u, w)
  {
    forall id <- w.attempts | w.attempts[id].experiment == x && !(id in u.attempts && u.attempts[id].experiment == x)
      ensures NotCompleted(x, u, w.attempts[id].episode)
    {
      if id in v.attempts && v.attempts[id].experiment == x {
        hide NotCompleted;
        assert SameIdentity(v.attempts[id], w.attempts[id]);
      } else {
        assert NotCompleted(x, v, w.attempts[id].episode);
        forall other <- u.attempts | Of(u.attempts[other], x, w.attempts[id].episode)
          ensures !IsTerminal(u.attempts[other].status)
        {
          assert SameIdentity(u.attempts[other], v.attempts[other]);
        }
      }
    }
  }

  lemma ChangeRecovers(x: string, v: Evaluations, v': Evaluations, a: Attempt)
    requires ChangesAt(v, v', a) && a.experiment == x && NotCompleted(x, v, a.episode)
    requires forall id <- v.results :: id in v'.results && v'.results[id] == v.results[id]
    ensures Recovers(x, v, v')
  {
    if a.id in v.attempts {
      assert Of(v.attempts[a.id], x, a.episode);
    }
  }

  lemma BeginRecovers(x: string, v: Evaluations, live: Live, i: nat)
    requires LiveInv(x, v, live) && i < |live.slots| && live.slots[i].phase == Waiting
    ensures Recovers(x, v, Begin(v, live, i).0)
  {
    hide HasNumber, ExecutingSlots, DistinctSlots, SerialSlots, CountsInv;
    var a := live.slots[i].attempt;
    assert SlotInv(x, v, live.slots[i]);
    BeginFiles(v, live, i);
    hide Begin, LiveInv, Register;
    if Begin(v, live, i).0 == Filed(v, a, Running) {
      FilingChangesAt(x, v, a, Running);
      hide ChangesAt;
      ChangeRecovers(x, v, Filed(v, a, Running), a);
    }
  }

  lemma FinishRecovers(x: string, v: Evaluations, live: Live, i: nat, o: Outcome)
    requires LiveInv(x, v, live) && i < |live.slots| && live.slots[i].phase == Executing
    requires Finish(v, live.slots[i].attempt.id, o).Ok?
    ensures Recovers(x, v, Finish(v, live.slots[i].attempt.id, o).value)
  {
    hide HasNumber, ExecutingSlots, DistinctSlots, SerialSlots, CountsInv;
    var a := live.slots[i].attempt;
    assert SlotInv(x, v, live.slots[i]);
    hide LiveInv;
    FinishChangesAt(v, a, o);
    hide ChangesAt;
    ChangeRecovers(x, v, Finish(v, a.id, o).value, a);
  }

  lemma RecordRecovers(x: string, v: Evaluations, live: Live, i: nat, o: Outcome)
    requires LiveInv(x, v, live) && i < |live.slots| && live.slots[i].phase == Executing
    ensures Recovers(x, v, Record(v, live, i, o).0)
  {
    hide LiveInv, Recovers, Finish;
    if Finish(v, live.slots[i].attempt.id, o).Ok? {
      FinishRecovers(x, v, live, i, o);
    } else {
      Unchanged(x, v);
    }
  }

  lemma CompleteRecovers(x: string, v: Evaluations, live: Live, i: nat, reply: Reply)
    requires LiveInv(x, v, live) && i < |live.slots| && live.slots[i].phase == Executing
    ensures Recovers(x, v, Complete(v, live, i, reply).0)
  {
    hide LiveInv, Recovers, Record;
    Unchanged(x, v);
    if reply.Threw? {
      RecordRecovers(x, v, live, i, BROKEN);
    } else if reply.Gave? {
      RecordRecovers(x, v, live, i, reply.outcome);
    }
  }

  lemma AbandonOneRecovers(x: string, v: Evaluations, live: Live, i: nat)
    requires LiveInv(x, v, live) && i < |live.slots|
    ensures Recovers(x, v, AbandonOne(v, live, i).0)
  {
    var finished := Finish(v, live.slots[i].attempt.id, INTERRUPTED);
    if live.slots[i].phase == Executing && finished.Ok? {
      hide LiveInv, Recovers, Finish;
      FinishRecovers(x, v, live, i, INTERRUPTED);
    } else {
      assert AbandonOne(v, live, i).0 == v by {
        hide HasNumber, ExecutingSlots, DistinctSlots, SerialSlots, CountsInv;
        assert SlotInv(x, v, live.slots[i]);
      }
      hide AbandonOne, LiveInv, Finish;
    }
  }

  lemma {:induction false} AbandonRecovers(x: string, v: Evaluations, live: Live, i: nat)
    requires RecordsInv(x, v) && LiveInv(x, v, live)
    ensures Recovers(x, v, Abandon(v, live, i).0)
    decreases |live.slots| - i
  {
    hide RecordsInv, LiveInv, AbandonOne, Recovers;
    if i < |live.slots| {
      AbandonOneKeeps(x, v, live, i);
      AbandonOneRecovers(x, v, live, i);
      var (v', live') := AbandonOne(v, live, i);
      AbandonRecovers(x, v', live', i + 1);
      RecoversTransitively(x, v, v', Abandon(v', live', i + 1).0);
    } else {
      Unchanged(x, v);
    }
  }

  lemma OthersRecover(w: World, v': Evaluations)
    requires OthersOnly(w, v')
    ensures Recovers(w.experiment, w.store, v')
  {
  }

  lemma StepRecovers(w: World, e: Event)
    requires WorldInv(w) && Enabled(w, e)
    ensures Recovers(w.experiment, w.store, Next(w, e).store)
  {
    if e.Acquire? || e.Answer? || e.AbandonRest? || e.Others? {
      hide RecordsInv, LiveInv, Begin, Complete, Abandon, OthersOnly, ExecutingSlots, Recovers;
      if e.Acquire? {
        BeginRecovers(w.experiment, w.store, w.live.value, e.i);
      } else if e.AbandonRest? {
        AbandonRecovers(w.experiment, w.store, w.live.value, 0);
      } else if e.Others? {
        OthersRecover(w, e.store);
      } else {
        CompleteRecovers(w.experiment, w.store, w.live.value, e.i, e.reply);
      }
    } else {
      hide RecordsInv, LiveInv, IsUnfinished, TaskQueue.IsQueue, Recovers;
      Unchanged(w.experiment, w.store);
    }
  }

  lemma Unchanged(x: string, v: Evaluations)
    ensures Recovers(x, v, v)
  {
  }

  /** Between any two points of a history: nothing recorded is lost, what succeeded or failed stays as it
      is with its result, and no attempt of a completed task is registered. */
  lemma {:induction false} HistoryRecovers(x: string, worlds: seq<World>, events: seq<Event>, i: nat, j: nat)
    requires IsHistory(x, worlds, events) && i <= j < |worlds|
    ensures Recovers(x, worlds[i].store, worlds[j].store)
    decreases j
  {
    hide Recovers, WorldInv, Enabled, Next;
    if i == j {
      Unchanged(x, worlds[i].store);
    } else {
      HistoryRecovers(x, worlds, events, i, j - 1);
      HistoryInv(x, worlds, events, j - 1);
      assert Enabled(worlds[j - 1], events[j - 1]);
      StepRecovers(worlds[j - 1], events[j - 1]);
      RecoversTransitively(x, worlds[i].store, worlds[j - 1].store, worlds[j].store);
    }
  }

  lemma StaysCompleted(x: string, v: Evaluations, v': Evaluations, e: Episode)
    requires Recovers(x, v, v') && e in CompletedTasks(v, x)
    ensures e in CompletedTasks(v', x) && !NotCompleted(x, v, e)
  {
    var done :| done in v.attempts && Of(v.attempts[done], x, e) && IsTerminal(v.attempts[done].status);
    assert Of(v.attempts[done], x, e);
    assert v'.attempts[done] == v.attempts[done];
  }

  lemma SettledBy(x: string, v: Evaluations, v': Evaluations, e: Episode)
    requires Recovers(x, v, v') && !NotCompleted(x, v, e)
    ensures AttemptsOf(v', x, e) == AttemptsOf(v, x, e)
  {
    hide NotCompleted;
    forall id
      ensures id in AttemptsOf(v', x, e) <==> id in AttemptsOf(v, x, e)
    {
      if id in AttemptsOf(v, x, e) || id in AttemptsOf(v', x, e) {
        assert SameIdentity(v.attempts[id], v'.attempts[id]);
      }
    }
  }

  /** A completed task stays completed, and its attempts are settled for good. */
  lemma CompletedForGood(x: string, worlds: seq<World>, events: seq<Event>, i: nat, j: nat, e: Episode)
    requires IsHistory(x, worlds, events) && i <= j < |worlds|
    requires e in CompletedTasks(worlds[i].store, x)
    ensures e in CompletedTasks(worlds[j].store, x)
    ensures AttemptsOf(worlds[j].store, x, e) == AttemptsOf(worlds[i].store, x, e)
  {
    hide IsHistory, Recovers, CompletedTasks, AttemptsOf, NotCompleted;
    HistoryRecovers(x, worlds, events, i, j);
    StaysCompleted(x, worlds[i].store, worlds[j].store, e);
    SettledBy(x, worlds[i].store, worlds[j].store, e);
  }

  /** A run takes on listed tasks that are not completed, each once and under the next number of its task;
      one that is not stopped while launching takes on all of them. */
  lemma ResumesEveryTask(x: string, worlds: seq<World>, events: seq<Event>, k: nat)
    requires IsHistory(x, worlds, events) && k < |events| && events[k].Launch?
    ensures worlds[k + 1].live.Some?
    ensures var c, v, slots := events[k].config, worlds[k].store, worlds[k + 1].live.value.slots;
      && DistinctSlots(slots)
      && (forall s <- slots :: s.phase == Waiting && s.attempt.episode in c.episodes
            && s.attempt.episode !in CompletedTasks(v, x) && s.attempt.number == |AttemptsOf(v, x, s.attempt.episode)| + 1
            && s.attempt.run == events[k].run && s.attempt.experiment == x && s.attempt.id !in v.attempts)
      && (!events[k].stop ==> forall e :: e in c.episodes && e !in CompletedTasks(v, x) ==>
            exists s <- slots :: s.attempt.episode == e)
  {
    var e, v := events[k], worlds[k].store;
    HistoryInv(x, worlds, events, k);
    assert Enabled(worlds[k], e) && worlds[k + 1] == Next(worlds[k], e);
    assert RecordsInv(x, v);
    hide IsHistory, LiveInv, RecordsInv;
    var slots := worlds[k + 1].live.value.slots;
    TaskQueue.QueueIsExact(e.config.episodes, CompletedTasks(v, x), e.queue);
    QueueShapes(e.config, CompletedTasks(v, x), e.queue, slots);
    hide TaskQueue.IsQueue, CompletedTasks, IsUnfinished, DistinctSlots;
    forall s <- slots
      ensures s.phase == Waiting && s.attempt.episode in e.config.episodes && s.attempt.episode !in CompletedTasks(v, x)
      ensures s.attempt.number == |AttemptsOf(v, x, s.attempt.episode)| + 1
      ensures s.attempt.run == e.run && s.attempt.experiment == x && s.attempt.id !in v.attempts
    {
      var i :| 0 <= i < |slots| && slots[i] == s;
      assert e.queue[i] in e.queue;
      assert RecordsInv(x, v) ==> NoGap(x, v) && NoRepeat(x, v);
      NextIsCounted(x, v, e.latest, e.queue[i]);
    }
    if !e.stop {
      forall ep | ep in e.config.episodes && ep !in CompletedTasks(v, x)
        ensures exists s <- slots :: s.attempt.episode == ep
      {
        var i :| 0 <= i < |e.queue| && e.queue[i] == ep;
        assert slots[i].attempt.episode == ep;
      }
    }
  }

  lemma NextIsCounted(x: string, v: Evaluations, latest: map<Episode, Attempt>, e: Episode)
    requires NoGap(x, v) && NoRepeat(x, v) && IsUnfinished(v, x, latest) && e !in CompletedTasks(v, x)
    ensures NextNumber(latest, e) == |AttemptsOf(v, x, e)| + 1
  {
    if e in latest {
      HighestIsCount(x, v, e, latest[e].id);
    } else {
      assert AttemptsOf(v, x, e) == {};
    }
  }
}
