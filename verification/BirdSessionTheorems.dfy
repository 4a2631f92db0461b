/** Coins are conserved, and a session that must stop makes no further model call. */
module BirdSessionTheorems {
  import opened Common
  import opened BirdSession

  lemma AfterSplits(start: State, log: seq<Entry>, k: nat)
    requires k < |log|
    ensures After(start, log[..k + 1]) == Step(After(start, log[..k]), log[k])
    ensures Spent(start, log[..k + 1]) == Spent(start, log[..k])
      + if Forwarded(After(start, log[..k]), log[k]) && CostOf(log[k].name).Some? then CostOf(log[k].name).value else 0.0
  {
    assert log[..k + 1][..k] == log[..k];
  }

  /** From a budget of B >= 0: the remaining budget is -1 or lies in 0..B; while it is not negative, B minus
      it is the cost of all forwarded calls, and every forwarded call of the catalogue was paid. */
  lemma {:induction false} CoinConservation(start: State, log: seq<Entry>, budget: real, k: nat)
    requires start.budget == Some(budget) && budget >= 0.0 && k <= |log|
    ensures var left := After(start, log[..k]).budget;
      && left.Some? && (left.value == -1.0 || 0.0 <= left.value <= budget)
      && (left.value >= 0.0 ==> budget - left.value == Spent(start, log[..k]))
  {
    if k > 0 {
      CoinConservation(start, log, budget, k - 1);
      AfterSplits(start, log, k - 1);
      hide After, Spent, Step, CostOf, Gate;
      var before := After(start, log[..k - 1]);
      StepSpends(before, log[k - 1], before.budget.value);
      StepCosts(before, log[k - 1], before.budget.value);
    } else {
      assert log[..0] == [];
    }
  }

  /** One step: the budget never goes up, a negative one stays, and only a submission or a name outside
      the catalogue is forwarded without its price being there. */
  lemma StepSpends(s: State, e: Entry, budget: real)
    requires s.budget == Some(budget) && (budget >= 0.0 || budget == -1.0)
    ensures Step(s, e).budget.Some? && Step(s, e).budget.value <= budget
    ensures budget == -1.0 ==> Step(s, e).budget == Some(-1.0)
    ensures Forwarded(s, e) ==>
      (CostOf(e.name).Some? && CostOf(e.name).value <= budget) || e.name == SUBMIT || CostOf(e.name).None?
    ensures e.Call? && !Forwarded(s, e) ==> Step(s, e) == s
  {
    hide CostOf;
    if e.Call? {
      AfterToolKeepsBudget(Gate(s, e.name).0, e.name, e.answer);
      hide AfterTool;
    }
  }

  lemma AfterToolKeepsBudget(s: State, name: string, answer: Answer)
    ensures AfterTool(s, name, answer).budget == s.budget
    ensures s.taskDone ==> AfterTool(s, name, answer).taskDone
  {
  }

  /** A step that leaves the budget non-negative lowers it by exactly what it forwards. */
  lemma StepCosts(s: State, e: Entry, budget: real)
    requires s.budget == Some(budget) && (budget >= 0.0 || budget == -1.0)
    ensures var left := Step(s, e).budget;
      && left.Some? && (left.value == -1.0 || 0.0 <= left.value)
      && (left.value >= 0.0 ==> budget >= 0.0)
      && (left.value >= 0.0 ==>
            budget - left.value == if Forwarded(s, e) && CostOf(e.name).Some? then CostOf(e.name).value else 0.0)
  {
    hide CostOf;
    if e.Call? {
      AfterToolKeepsBudget(Gate(s, e.name).0, e.name, e.answer);
      hide AfterTool;
    }
  }

  function BudgetAt(start: State, log: seq<Entry>, k: nat): Option<real>
    requires k <= |log|
  {
    After(start, log[..k]).budget
  }

  lemma OneStepFalls(start: State, log: seq<Entry>, budget: real, k: nat)
    requires start.budget == Some(budget) && budget >= 0.0 && k < |log|
    ensures var before, after := BudgetAt(start, log, k), BudgetAt(start, log, k + 1);
      && before.Some? && after.Some? && after.value <= before.value
      && (before == Some(-1.0) ==> after == Some(-1.0))
  {
    hide After, Spent, Step, Forwarded, CostOf;
    CoinConservation(start, log, budget, k);
    AfterSplits(start, log, k);
    StepSpends(After(start, log[..k]), log[k], After(start, log[..k]).budget.value);
  }

  /** Over a whole session the budget only falls, and the stop signal stays. */
  lemma {:induction false} BudgetFalls(start: State, log: seq<Entry>, budget: real, i: nat, j: nat)
    requires start.budget == Some(budget) && budget >= 0.0 && i <= j <= |log|
    ensures var before, after := BudgetAt(start, log, i), BudgetAt(start, log, j);
      && before.Some? && after.Some? && after.value <= before.value
      && (before == Some(-1.0) ==> after == Some(-1.0))
    decreases j
  {
    if i < j {
      hide BudgetAt;
      BudgetFalls(start, log, budget, i, j - 1);
      OneStepFalls(start, log, budget, j - 1);
    } else {
      hide After, Spent;
      CoinConservation(start, log, budget, i);
    }
  }

  /** A call goes unpaid exactly when it is a submission short of its price, or not of the catalogue. */
  lemma UnpaidExactly(s: State, name: string, answer: Answer)
    requires s.budget.Some? && s.budget.value >= 0.0
    ensures Forwarded(s, Call(name, answer)) && Step(s, Call(name, answer)).budget == Some(s.budget.value) <==>
      CostOf(name).None?
    ensures Forwarded(s, Call(name, answer)) && CostOf(name).Some? && s.budget.value < CostOf(name).value <==>
      name == SUBMIT && s.budget.value < 3.0
  {
    hide CostOf;
    AfterToolKeepsBudget(Gate(s, name).0, name, answer);
    hide AfterTool;
  }

  /** The stop condition is never taken back. */
  lemma {:induction false} StoppingStays(start: State, log: seq<Entry>, i: nat, j: nat)
    requires i <= j <= |log| && Stopping(After(start, log[..i]))
    ensures Stopping(After(start, log[..j]))
    decreases j
  {
    hide After, Spent, Step;
    if i < j {
      StoppingStays(start, log, i, j - 1);
      AfterSplits(start, log, j - 1);
      StepKeepsStopping(After(start, log[..j - 1]), log[j - 1]);
    }
  }

  lemma StepKeepsStopping(s: State, e: Entry)
    requires Stopping(s)
    ensures Stopping(Step(s, e))
  {
    hide CostOf;
    if e.Call? {
      AfterToolKeepsBudget(Gate(s, e.name).0, e.name, e.answer);
      hide AfterTool;
    }
  }

  /** Once the budget signals the stop or the task is done, no later model call happens, in whichever run
      of the session. */
  lemma NoCallAfterStop(start: State, log: seq<Entry>, ablation: bool, i: nat, j: nat)
    requires IsLog(start, log, ablation) && i <= j < |log| && Stopping(After(start, log[..i]))
    ensures log[j] != Ask
  {
    hide After;
    StoppingStays(start, log, i, j);
  }

  /** Which reason a stop is given: with the ablation on, a failed last submission wins over both official
      signals, the coin signal included. */
  lemma StopReasonExact(s: State, ablation: bool)
    ensures StopModelTurn(s, ablation).None? <==> !Stopping(s) && !(ablation && s.lastPassed == Some(false))
    ensures StopModelTurn(s, ablation) == Some(CoinSignal) <==>
      !s.taskDone && s.budget.Some? && s.budget.value < 0.0 && !(ablation && s.lastPassed == Some(false))
    ensures StopModelTurn(s, true) == Some(Ablation) && Stopping(s) <==> Stopping(s) && s.lastPassed == Some(false)
  {
  }

  // ---- what submissions change ----

  /** Entry `k` of the log is a submission that reached the tool and came back with a body. */
  predicate Submits(log: seq<Entry>, k: nat, body: Body) {
    k < |log| && log[k] == Call("submit_sql", Submitted(body))
  }

  /** A submission is never refused. */
  lemma SubmissionsReach(s: State, answer: Answer)
    ensures Forwarded(s, Call("submit_sql", answer))
  {
  }

  /** The submission ends the task: it passed the second phase, or the first with nothing to follow. */
  predicate Finishes(body: Body) {
    body.passed && (body.phase == Some(2) || (body.phase == Some(1) && !body.followUp))
  }

  ghost predicate Finished(log: seq<Entry>, n: nat) {
    exists k: nat, body :: k < n && Submits(log, k, body) && Finishes(body)
  }

  ghost predicate PassedPhase(log: seq<Entry>, n: nat, phase: int) {
    exists k: nat, body :: k < n && Submits(log, k, body) && body.passed && body.phase == Some(phase)
  }

  /** The rewards of the passed submissions among the first `n` entries. */
  function Rewards(log: seq<Entry>, n: nat): real
    requires n <= |log|
  {
    if n == 0 then 0.0
    else
      Rewards(log, n - 1) + match log[n - 1]
                            case Call(name, Submitted(body)) => if name == "submit_sql" && body.passed then body.reward else 0.0
                            case _ => 0.0
  }

  /** Whether the last submission that came back with a body passed. */
  function LastVerdict(log: seq<Entry>, n: nat): Option<bool>
    requires n <= |log|
  {
    if n == 0 then None
    else
      match log[n - 1]
      case Call(name, Submitted(body)) => if name == "submit_sql" then Some(body.passed) else LastVerdict(log, n - 1)
      case _ => LastVerdict(log, n - 1)
  }

  ghost predicate SubmissionsTell(start: State, s: State, log: seq<Entry>, n: nat)
    requires n <= |log|
  {
    && (s.taskDone <==> start.taskDone || Finished(log, n))
    && (s.phase1 <==> start.phase1 || PassedPhase(log, n, 1))
    && (s.phase2 <==> start.phase2 || PassedPhase(log, n, 2))
    && s.reward == start.reward + Rewards(log, n)
    && s.lastPassed == (if LastVerdict(log, n).Some? then LastVerdict(log, n) else start.lastPassed)
  }

  /** An entry that is no submission with a body tells nothing new; one that is tells what its body says. */
  lemma NothingNew(log: seq<Entry>, n: nat)
    requires n < |log| && forall body :: !Submits(log, n, body)
    ensures Finished(log, n + 1) <==> Finished(log, n)
    ensures forall p :: PassedPhase(log, n + 1, p) <==> PassedPhase(log, n, p)
    ensures Rewards(log, n + 1) == Rewards(log, n) && LastVerdict(log, n + 1) == LastVerdict(log, n)
  {
    if log[n].Call? && log[n].answer.Submitted? {
      assert !Submits(log, n, log[n].answer.body);
    }
    hide Submits, Finishes;
  }

  lemma BodyTells(log: seq<Entry>, n: nat, b: Body)
    requires n < |log| && Submits(log, n, b)
    ensures Finished(log, n + 1) <==> Finished(log, n) || Finishes(b)
    ensures forall p :: PassedPhase(log, n + 1, p) <==> PassedPhase(log, n, p) || (b.passed && b.phase == Some(p))
    ensures Rewards(log, n + 1) == Rewards(log, n) + (if b.passed then b.reward else 0.0)
    ensures LastVerdict(log, n + 1) == Some(b.passed)
  {
    assert forall body :: Submits(log, n, body) ==> body == b;
    hide Submits, Finishes;
  }

  /** What one entry does to the parts of the state that submissions change. */
  lemma EntryTells(s: State, e: Entry)
    ensures e.Call? && e.name == "submit_sql" && e.answer.Submitted? ==>
      var b, after := e.answer.body, Step(s, e);
      && (after.taskDone <==> s.taskDone || Finishes(b))
      && (after.phase1 <==> s.phase1 || (b.passed && b.phase == Some(1)))
      && (after.phase2 <==> s.phase2 || (b.passed && b.phase == Some(2)))
      && after.reward == s.reward + (if b.passed then b.reward else 0.0) && after.lastPassed == Some(b.passed)
    ensures !(e.Call? && e.name == "submit_sql" && e.answer.Submitted?) ==>
      Step(s, e) == s.(budget := Step(s, e).budget)
  {
  }

  /** At every point of a session: the task is done exactly if some submission ended it, a phase is passed exactly
      if some submission passed it, the reward is that of the passed submissions, and the last verdict is
      that of the last submission that came back with a body. */
  lemma {:induction false} SubmissionsDecide(start: State, log: seq<Entry>, n: nat)
    requires n <= |log|
    ensures SubmissionsTell(start, After(start, log[..n]), log, n)
  {
    if n == 0 {
      assert log[..0] == [];
    } else {
      SubmissionsDecide(start, log, n - 1);
      AfterSplits(start, log, n - 1);
      EntryTells(After(start, log[..n - 1]), log[n - 1]);
      var e := log[n - 1];
      hide After, Spent, Step, CostOf, Rewards, LastVerdict, Finished, PassedPhase, Finishes;
      if e.Call? && e.name == "submit_sql" && e.answer.Submitted? {
        assert Submits(log, n - 1, e.answer.body);
        BodyTells(log, n - 1, e.answer.body);
      } else {
        NothingNew(log, n - 1);
      }
    }
  }

  // ---- prices and the gate ----

  /** The catalogue. */
  lemma PricesExactly(name: string)
    ensures CostOf(name) == Some(1.0) <==>
      name in {"execute_sql", "get_schema", "get_all_column_meanings", "get_all_knowledge_definitions"}
    ensures CostOf(name) == Some(0.5) <==>
      name in {"get_column_meaning", "get_all_external_knowledge_names", "get_knowledge_definition"}
    ensures CostOf(name) == Some(2.0) <==> name == "ask_user"
    ensures CostOf(name) == Some(3.0) <==> name == "submit_sql"
    ensures CostOf(name).Some? ==> CostOf(name).value in {0.5, 1.0, 2.0, 3.0}
  {
  }

  /** The gate: a call is refused exactly if it has a price above what is left and is no submission; a call that can
      be paid is paid in full, and a submission that leaves nothing, or cannot be paid, signals the stop. */
  lemma GateExactly(s: State, name: string)
    ensures var price := CostOf(name);
      var (after, forwarded) := Gate(s, name);
      && (!forwarded <==> price.Some? && Remaining(s) < price.value && name != "submit_sql")
      && (!forwarded || price.None? ==> after == s)
      && (price.Some? && Remaining(s) >= price.value && name != "submit_sql" ==>
            after == s.(budget := Some(Remaining(s) - price.value)))
      && (name == "submit_sql" ==>
            after == s.(budget := Some(if Remaining(s) > 3.0 then Remaining(s) - 3.0 else -1.0)))
    ensures Remaining(s) == match s.budget case None => 0.0 case Some(left) => left
  {
  }
}
