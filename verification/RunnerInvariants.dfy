/** What the store records of an experiment and its live runner keep over every event. */
module RunnerInvariants {
  import opened Common
  import opened EvaluationStore
  import opened EvaluationRunner

  // ---- the records of one experiment ----

  ghost predicate HasNumber(v: Evaluations, x: string, e: Episode, n: nat) {
    exists id <- v.attempts :: Of(v.attempts[id], x, e) && v.attempts[id].number == n
  }

  /** Attempt numbers of a task start at one and leave no gap. */
  ghost predicate NoGap(x: string, v: Evaluations) {
    forall id <- v.attempts :: v.attempts[id].experiment == x ==>
      && v.attempts[id].number >= 1
      && (v.attempts[id].number > 1 ==> HasNumber(v, x, v.attempts[id].episode, v.attempts[id].number - 1))
  }

  /** No two attempts of a task share a number, whichever runs they belong to. */
  ghost predicate NoRepeat(x: string, v: Evaluations) {
    && (forall id <- v.attempts :: v.attempts[id].id == id)
    && (forall a, b | a in v.attempts && b in v.attempts ::
          SameTask(x, v.attempts[a], v.attempts[b]) && v.attempts[a].number == v.attempts[b].number ==> a == b)
  }

  predicate SameTask(x: string, a: Attempt, b: Attempt) {
    a.experiment == x && b.experiment == x && a.episode == b.episode
  }

  /** A succeeded or failed attempt is the last of its task. */
  ghost predicate TerminalLast(x: string, v: Evaluations) {
    forall a, b | a in v.attempts && b in v.attempts ::
      SameTask(x, v.attempts[a], v.attempts[b]) && IsTerminal(v.attempts[a].status) ==>
        v.attempts[b].number <= v.attempts[a].number
  }

  ghost predicate ResultsEarned(x: string, v: Evaluations) {
    && (forall id <- v.results :: id in v.attempts)
    && (forall id <- v.results :: v.attempts[id].experiment == x ==> v.attempts[id].status == Succeeded)
  }

  ghost predicate RecordsInv(x: string, v: Evaluations) {
    NoGap(x, v) && NoRepeat(x, v) && TerminalLast(x, v) && ResultsEarned(x, v)
  }

  // ---- the slots of the live runner ----

  predicate SameIdentity(a: Attempt, b: Attempt) {
    a.id == b.id && a.run == b.run && a.experiment == b.experiment && a.episode == b.episode && a.number == b.number
  }

  /** The attempt would be the next of its task, which is not completed. */
  ghost predicate NextUp(x: string, v: Evaluations, a: Attempt) {
    && a.number >= 1
    && (a.number > 1 ==> HasNumber(v, x, a.episode, a.number - 1))
    && forall id <- v.attempts :: Of(v.attempts[id], x, a.episode) ==>
         v.attempts[id].number < a.number && !IsTerminal(v.attempts[id].status)
  }

  /** The attempt is the last of its task, which is not completed. */
  ghost predicate IsLast(x: string, v: Evaluations, a: Attempt) {
    forall id <- v.attempts :: Of(v.attempts[id], x, a.episode) ==>
      v.attempts[id].number <= a.number && !IsTerminal(v.attempts[id].status)
  }

  ghost predicate SlotInv(x: string, v: Evaluations, s: Slot) {
    && s.attempt.experiment == x && s.attempt.status == Pending && s.attempt.errorClass.None?
    && (s.attempt.id in v.attempts ==> SameIdentity(v.attempts[s.attempt.id], s.attempt))
    && match s.phase
       case Waiting => s.attempt.id !in v.attempts && NextUp(x, v, s.attempt)
       case Skipped => s.attempt.id !in v.attempts
       case Executing =>
         && s.attempt.id in v.attempts && v.attempts[s.attempt.id].status == Running
         && s.attempt.id !in v.results && IsLast(x, v, s.attempt)
       case Finished => s.attempt.id in v.attempts
       case Raised => true
       case Cancelled => s.attempt.id in v.attempts && v.attempts[s.attempt.id].status == Running
  }

  /** The numbers of the finished slots whose attempt is stored with status `s`. */
  function FinishedWith(v: Evaluations, slots: seq<Slot>, s: Status): set<nat> {
    set i: nat | i < |slots| && slots[i].phase == Finished
      && slots[i].attempt.id in v.attempts && v.attempts[slots[i].attempt.id].status == s
  }

  ghost predicate CountsInv(v: Evaluations, live: Live) {
    forall s: Status :: CountOf(live.counts, s) == |FinishedWith(v, live.slots, s)|
  }

  predicate DistinctSlots(slots: seq<Slot>) {
    forall i, j | 0 <= i < j < |slots| ::
      slots[i].attempt.id != slots[j].attempt.id && slots[i].attempt.episode != slots[j].attempt.episode
  }

  predicate SerialSlots(live: Live) {
    live.concurrency > 1 ==>
      forall i, j | 0 <= i < j < |live.slots| :: live.slots[i].attempt.episode.task != live.slots[j].attempt.episode.task
  }

  ghost predicate LiveInv(x: string, v: Evaluations, live: Live) {
    && DistinctSlots(live.slots)
    && SerialSlots(live)
    && live.concurrency >= 1
    && |ExecutingSlots(live.slots)| <= live.concurrency
    && CountsInv(v, live)
    && forall i | 0 <= i < |live.slots| :: SlotInv(x, v, live.slots[i])
  }

  ghost predicate WorldInv(w: World) {
    && RecordsInv(w.experiment, w.store)
    && (w.live.Some? ==> LiveInv(w.experiment, w.store, w.live.value))
  }

  // ---- changing one record ----

  /** The store changes at one attempt only, and never that attempt's identity. */
  ghost predicate ChangesAt(v: Evaluations, v': Evaluations, a: Attempt) {
    && (forall id <- v.attempts :: id in v'.attempts && (id != a.id ==> v'.attempts[id] == v.attempts[id]))
    && (forall id <- v'.attempts :: id == a.id || id in v.attempts)
    && (a.id in v'.attempts ==> SameIdentity(v'.attempts[a.id], a))
    && (a.id in v.attempts ==> SameIdentity(v.attempts[a.id], a))
    && (forall id <- v'.results :: id == a.id || id in v.results)
  }

  lemma HasNumberStable(v: Evaluations, v': Evaluations, a: Attempt, x: string, e: Episode, n: nat)
    requires ChangesAt(v, v', a) && HasNumber(v, x, e, n)
    ensures HasNumber(v', x, e, n)
  {
    var id :| id in v.attempts && Of(v.attempts[id], x, e) && v.attempts[id].number == n;
    assert Of(v'.attempts[id], x, e) && v'.attempts[id].number == n;
  }

  /** Slots of other tasks do not notice. */
  lemma OtherSlotKept(x: string, v: Evaluations, v': Evaluations, a: Attempt, s: Slot)
    requires ChangesAt(v, v', a) && SlotInv(x, v, s)
    requires s.attempt.id != a.id && s.attempt.episode != a.episode
    ensures SlotInv(x, v', s)
  {
    if s.phase == Waiting && s.attempt.number > 1 {
      HasNumberStable(v, v', a, x, s.attempt.episode, s.attempt.number - 1);
    }
  }

  /** Filing the next attempt of a task. */
  function Filed(v: Evaluations, a: Attempt, status: Status): Evaluations {
    v.(attempts := v.attempts[a.id := a.(status := status)])
  }

  lemma FilingChangesAt(x: string, v: Evaluations, a: Attempt, status: Status)
    requires a.id !in v.attempts
    ensures ChangesAt(v, Filed(v, a, status), a)
  {
  }

  lemma FilingKeepsNoGap(x: string, v: Evaluations, a: Attempt, status: Status)
    requires NoGap(x, v) && a.experiment == x && a.id !in v.attempts && NextUp(x, v, a)
    ensures NoGap(x, Filed(v, a, status))
  {
    var v' := Filed(v, a, status);
    FilingChangesAt(x, v, a, status);
    forall id <- v'.attempts | v'.attempts[id].experiment == x && v'.attempts[id].number > 1
      ensures HasNumber(v', x, v'.attempts[id].episode, v'.attempts[id].number - 1)
    {
      HasNumberStable(v, v', a, x, v'.attempts[id].episode, v'.attempts[id].number - 1);
    }
  }

  lemma FilingKeepsNoRepeat(x: string, v: Evaluations, a: Attempt, status: Status)
    requires NoRepeat(x, v) && a.experiment == x && a.id !in v.attempts && NextUp(x, v, a)
    ensures NoRepeat(x, Filed(v, a, status))
  {
  }

  lemma FilingKeepsTerminalLast(x: string, v: Evaluations, a: Attempt, status: Status)
    requires TerminalLast(x, v) && a.experiment == x && a.id !in v.attempts && NextUp(x, v, a) && !IsTerminal(status)
    ensures TerminalLast(x, Filed(v, a, status))
  {
  }

  lemma FilingKeepsRecords(x: string, v: Evaluations, a: Attempt, status: Status)
    requires RecordsInv(x, v) && a.experiment == x && a.id !in v.attempts && NextUp(x, v, a) && !IsTerminal(status)
    ensures RecordsInv(x, Filed(v, a, status))
    ensures a.id !in v.results && IsLast(x, Filed(v, a, status), a)
  {
    hide HasNumber;
    FilingKeepsNoGap(x, v, a, status);
    FilingKeepsNoRepeat(x, v, a, status);
    FilingKeepsTerminalLast(x, v, a, status);
  }

  /** Recording the outcome of the last attempt of a task. */
  lemma FinishChangesAt(v: Evaluations, a: Attempt, o: Outcome)
    requires a.id in v.attempts && SameIdentity(v.attempts[a.id], a) && Finish(v, a.id, o).Ok?
    ensures ChangesAt(v, Finish(v, a.id, o).value, a)
    ensures var v' := Finish(v, a.id, o).value; a.id in v'.attempts && v'.attempts[a.id].status == o.status
  {
  }

  lemma ChangeKeepsNoGap(x: string, v: Evaluations, v': Evaluations, a: Attempt)
    requires NoGap(x, v) && ChangesAt(v, v', a) && a.id in v.attempts
    ensures NoGap(x, v')
  {
    hide HasNumber;
    forall id <- v'.attempts | v'.attempts[id].experiment == x
      ensures v'.attempts[id].number >= 1
      ensures v'.attempts[id].number > 1 ==> HasNumber(v', x, v'.attempts[id].episode, v'.attempts[id].number - 1)
    {
      assert SameIdentity(v.attempts[id], v'.attempts[id]);
      if v'.attempts[id].number > 1 {
        HasNumberStable(v, v', a, x, v'.attempts[id].episode, v'.attempts[id].number - 1);
      }
    }
  }

  lemma ChangeKeepsNoRepeat(x: string, v: Evaluations, v': Evaluations, a: Attempt)
    requires NoRepeat(x, v) && ChangesAt(v, v', a) && a.id in v.attempts
    ensures NoRepeat(x, v')
  {
    assert forall id <- v'.attempts :: id in v.attempts && SameIdentity(v.attempts[id], v'.attempts[id]);
  }

  lemma ChangeKeepsTerminalLast(x: string, v: Evaluations, v': Evaluations, a: Attempt)
    requires TerminalLast(x, v) && ChangesAt(v, v', a) && a.id in v.attempts && IsLast(x, v, a) && a.experiment == x
    ensures TerminalLast(x, v')
  {
    assert forall id <- v'.attempts :: id in v.attempts && SameIdentity(v.attempts[id], v'.attempts[id]);
  }

  lemma FinishKeepsResultsEarned(x: string, v: Evaluations, a: Attempt, o: Outcome)
    requires ResultsEarned(x, v) && a.id in v.attempts && a.id !in v.results && Finish(v, a.id, o).Ok?
    ensures ResultsEarned(x, Finish(v, a.id, o).value)
  {
  }

  lemma FinishKeepsRecords(x: string, v: Evaluations, a: Attempt, o: Outcome)
    requires RecordsInv(x, v) && a.id in v.attempts && SameIdentity(v.attempts[a.id], a) && a.experiment == x
    requires a.id !in v.results && IsLast(x, v, a) && Finish(v, a.id, o).Ok?
    ensures RecordsInv(x, Finish(v, a.id, o).value)
  {
    hide NoGap, NoRepeat, TerminalLast, ResultsEarned, ChangesAt, IsLast;
    var v' := Finish(v, a.id, o).value;
    FinishChangesAt(v, a, o);
    hide Finish;
    ChangeKeepsNoGap(x, v, v', a);
    ChangeKeepsNoRepeat(x, v, v', a);
    ChangeKeepsTerminalLast(x, v, v', a);
    FinishKeepsResultsEarned(x, v, a, o);
  }

  // ---- one slot moves ----

  /** The store and the live runner change at slot `i` only. */
  ghost predicate MovesSlot(v: Evaluations, live: Live, v': Evaluations, live': Live, i: nat) {
    && i < |live.slots| == |live'.slots|
    && live'.slots == live.slots[i := live'.slots[i]]
    && live'.slots[i].attempt == live.slots[i].attempt
    && live'.concurrency == live.concurrency && live'.run == live.run
    && ChangesAt(v, v', live.slots[i].attempt)
  }

  lemma SlotsKept(x: string, v: Evaluations, live: Live, v': Evaluations, live': Live, i: nat)
    requires MovesSlot(v, live, v', live', i) && DistinctSlots(live.slots)
    requires forall j | 0 <= j < |live.slots| :: SlotInv(x, v, live.slots[j])
    requires SlotInv(x, v', live'.slots[i])
    ensures forall j | 0 <= j < |live'.slots| :: SlotInv(x, v', live'.slots[j])
  {
    hide SlotInv, ChangesAt;
    forall j | 0 <= j < |live'.slots|
      ensures SlotInv(x, v', live'.slots[j])
    {
      if j != i {
        OtherSlotKept(x, v, v', live.slots[i].attempt, live.slots[j]);
      }
    }
  }

  lemma ShapeKept(v: Evaluations, live: Live, v': Evaluations, live': Live, i: nat)
    requires MovesSlot(v, live, v', live', i) && DistinctSlots(live.slots) && SerialSlots(live)
    ensures DistinctSlots(live'.slots) && SerialSlots(live')
  {
    hide ChangesAt;
    assert forall j | 0 <= j < |live.slots| :: live'.slots[j].attempt == live.slots[j].attempt;
  }

  lemma ExecutingBounded(v: Evaluations, live: Live, v': Evaluations, live': Live, i: nat)
    requires MovesSlot(v, live, v', live', i) && |ExecutingSlots(live.slots)| <= live.concurrency
    requires live'.slots[i].phase == Executing ==> |ExecutingSlots(live.slots)| < live.concurrency
    ensures |ExecutingSlots(live'.slots)| <= live'.concurrency
  {
    hide ChangesAt;
    var before, after := ExecutingSlots(live.slots), ExecutingSlots(live'.slots);
    if live'.slots[i].phase == Executing {
      assert after == before + {i};
    } else {
      assert after == before - {i};
    }
  }

  lemma OthersFinishedAlike(v: Evaluations, live: Live, v': Evaluations, live': Live, i: nat, s: Status)
    requires MovesSlot(v, live, v', live', i) && DistinctSlots(live.slots)
    ensures FinishedWith(v, live.slots, s) - {i} == FinishedWith(v', live'.slots, s) - {i}
  {
    assert forall j | 0 <= j < |live.slots| && j != i :: live'.slots[j] == live.slots[j];
  }

  /** Slot `i` was not finished and may be now; the others count as before. */
  lemma FinishedAfter(v: Evaluations, live: Live, v': Evaluations, live': Live, i: nat, s: Status)
    requires MovesSlot(v, live, v', live', i) && DistinctSlots(live.slots) && live.slots[i].phase != Finished
    ensures i !in FinishedWith(v, live.slots, s)
    ensures FinishedWith(v', live'.slots, s)
         == FinishedWith(v, live.slots, s) + (if i in FinishedWith(v', live'.slots, s) then {i} else {})
  {
    assert i !in FinishedWith(v, live.slots, s);
    OthersFinishedAlike(v, live, v', live', i, s);
    hide *;
    var before, after := FinishedWith(v, live.slots, s), FinishedWith(v', live'.slots, s);
    assert before - {i} == after - {i};
    assert after == (after - {i}) + (if i in after then {i} else {});
  }

  lemma CountsKept(v: Evaluations, live: Live, v': Evaluations, live': Live, i: nat)
    requires MovesSlot(v, live, v', live', i) && DistinctSlots(live.slots) && CountsInv(v, live)
    requires live'.counts == live.counts && live.slots[i].phase != Finished && live'.slots[i].phase != Finished
    ensures CountsInv(v', live')
  {
    forall s: Status
      ensures CountOf(live'.counts, s) == |FinishedWith(v', live'.slots, s)|
    {
      assert i !in FinishedWith(v', live'.slots, s);
      hide FinishedWith, MovesSlot, DistinctSlots;
      FinishedAfter(v, live, v', live', i, s);
      assert FinishedWith(v', live'.slots, s) == FinishedWith(v, live.slots, s);
    }
  }

  lemma CountsGrow(v: Evaluations, live: Live, v': Evaluations, live': Live, i: nat, status: Status)
    requires MovesSlot(v, live, v', live', i) && DistinctSlots(live.slots) && CountsInv(v, live)
    requires live'.counts == Counted(live.counts, status) && live.slots[i].phase != Finished
    requires live'.slots[i].phase == Finished
    requires live.slots[i].attempt.id in v'.attempts && v'.attempts[live.slots[i].attempt.id].status == status
    ensures CountsInv(v', live')
  {
    forall s: Status
      ensures CountOf(live'.counts, s) == |FinishedWith(v', live'.slots, s)|
    {
      assert i in FinishedWith(v', live'.slots, s) <==> s == status;
      hide FinishedWith, MovesSlot, DistinctSlots;
      FinishedAfter(v, live, v', live', i, s);
      assert CountOf(live'.counts, s) == CountOf(live.counts, s) + if s == status then 1 else 0;
    }
  }
}
