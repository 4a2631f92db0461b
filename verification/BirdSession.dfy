/** A bird session in active mode: coin gate, submit handling, stop gates, and their shared state. */
module BirdSession {
  import opened Common

  datatype State = State(
    budget: Option<real>, taskDone: bool, phase1: bool, phase2: bool, reward: real, lastPassed: Option<bool>)

  /** The body of a submission's successful result, when it is a JSON object. */
  datatype Body = Body(passed: bool, reward: real, phase: Option<int>, followUp: bool)

  /** What the wrapped port answered: a failure, a success without a submission body, one with it, or an
      exception, from the port or from recording a malformed result, which changes nothing more. */
  datatype Answer = Failure | Plain | Submitted(body: Body) | Exception

  /** How a call of the decorator ends. */
  datatype CallEnd = Refused | Returned | Thrown

  /** The frozen catalogue; other names are forwarded without a charge. */
  function CostOf(name: string): (cost: Option<real>)
    ensures cost.Some? ==> 0.0 < cost.value <= 3.0
    ensures cost == Some(3.0) <==> name == SUBMIT
  {
    if name == "execute_sql" || name == "get_schema" || name == "get_all_column_meanings"
       || name == "get_all_knowledge_definitions" then Some(1.0)
    else if name == "get_column_meaning" || name == "get_all_external_knowledge_names"
       || name == "get_knowledge_definition" then Some(0.5)
    else if name == "ask_user" then Some(2.0)
    else if name == "submit_sql" then Some(3.0)
    else None
  }

  const SUBMIT := "submit_sql"

  function Remaining(s: State): real {
    if s.budget.Some? then s.budget.value else 0.0
  }

  /** `_gate_budget`: the new state, and whether the call is forwarded. */
  function Gate(s: State, name: string): (State, bool) {
    var cost := CostOf(name);
    if cost.None? then (s, true)
    else if Remaining(s) < cost.value then
      if name == SUBMIT then (s.(budget := Some(-1.0)), true) else (s, false)
    else
      var left := Remaining(s) - cost.value;
      (s.(budget := Some(if name == SUBMIT && left <= 0.0 then -1.0 else left)), true)
  }

  /** `_apply_submit_state`. */
  function AfterSubmit(s: State, body: Body): State {
    var rewarded := if body.passed then s.(reward := s.reward + body.reward) else s;
    var phased :=
      if body.passed && body.phase == Some(1) then
        rewarded.(phase1 := true, taskDone := rewarded.taskDone || !body.followUp)
      else if body.passed && body.phase == Some(2) then rewarded.(phase2 := true, taskDone := true)
      else rewarded;
    phased.(lastPassed := Some(body.passed))
  }

  function AfterTool(s: State, name: string, answer: Answer): State {
    if name == SUBMIT && answer.Submitted? then AfterSubmit(s, answer.body) else s
  }

  function EndOf(s: State, name: string, answer: Answer): CallEnd {
    if !Gate(s, name).1 then Refused else if answer == Exception then Thrown else Returned
  }

  datatype Entry =
    | Call(name: string, answer: Answer)
    | Ask

  function Step(s: State, e: Entry): State {
    match e
    case Ask => s
    case Call(name, answer) =>
      var (charged, forwarded) := Gate(s, name);
      if forwarded then AfterTool(charged, name, answer) else s
  }

  /** The official stop: the task is done or the budget carries the stop signal. */
  predicate Stopping(s: State) {
    s.taskDone || (s.budget.Some? && s.budget.value < 0.0)
  }

  datatype Stop = Ablation | TaskDone | CoinSignal

  /** The gates in the order the code asks them: the ablation gate comes before the official one. */
  function StopModelTurn(s: State, ablation: bool): Option<Stop> {
    if ablation && s.lastPassed == Some(false) then Some(Ablation)
    else if s.taskDone then Some(TaskDone)
    else if s.budget.Some? && s.budget.value < 0.0 then Some(CoinSignal)
    else None
  }

  /** The log of a session from its first state: model calls happen only where the gates let them. */
  predicate IsLog(start: State, log: seq<Entry>, ablation: bool) {
    forall k | 0 <= k < |log| :: log[k] == Ask ==> StopModelTurn(After(start, log[..k]), ablation).None?
  }

  function After(start: State, log: seq<Entry>): State {
    if log == [] then start else Step(After(start, log[..|log| - 1]), log[|log| - 1])
  }

  predicate Forwarded(s: State, e: Entry) {
    e.Call? && Gate(s, e.name).1
  }

  /** What the forwarded calls of a log cost by the catalogue. */
  function Spent(start: State, log: seq<Entry>): real {
    if log == [] then 0.0
    else
      var rest := log[..|log| - 1];
      var last := log[|log| - 1];
      Spent(start, rest)
        + if Forwarded(After(start, rest), last) && CostOf(last.name).Some? then CostOf(last.name).value else 0.0
  }

  // ---- the objects that share the state ----

  class SessionState {
    var s: State
    ghost const start: State
    ghost const ablation: bool
    ghost var log: seq<Entry>

    ghost predicate Valid()
      reads this
    {
      s == After(start, log) && IsLog(start, log, ablation)
    }

    constructor (s: State, ghost ablation: bool)
      ensures Valid() && this.s == s && start == s && log == [] && this.ablation == ablation
    {
      this.s, start, this.ablation, log := s, s, ablation, [];
    }

    ghost method Record(e: Entry)
      requires s == Step(After(start, log), e) && IsLog(start, log, ablation)
      requires e == Ask ==> StopModelTurn(After(start, log), ablation).None?
      modifies `log
      ensures Valid() && log == old(log) + [e]
    {
      var before := log;
      log := log + [e];
      assert log[..|before|] == before;
      forall k | 0 <= k < |log| && log[k] == Ask
        ensures StopModelTurn(After(start, log[..k]), ablation).None?
      {
        assert k < |before| ==> log[..k] == before[..k] && log[k] == before[k];
      }
    }
  }

  /** The port decorator: gate, forward, then record what a submission changed. */
  class BirdSessionStatePort {
    const state: SessionState

    constructor (state: SessionState)
      ensures this.state == state
    {
      this.state := state;
    }

    method GateBudget(name: string) returns (forward: bool)
      modifies state`s
      ensures (state.s, forward) == Gate(old(state.s), name)
    {
      var cost := CostOf(name);
      if cost.None? {
        return true;
      }
      var budget := Remaining(state.s);
      if budget < cost.value {
        if name == SUBMIT {
          state.s := state.s.(budget := Some(-1.0));
          return true;
        }
        return false;
      }
      var remaining := budget - cost.value;
      if name == SUBMIT && remaining <= 0.0 {
        remaining := -1.0;
      }
      state.s := state.s.(budget := Some(remaining));
      return true;
    }

    method ApplySubmitState(body: Body)
      modifies state`s
      ensures state.s == AfterSubmit(old(state.s), body)
    {
      if body.passed {
        state.s := state.s.(reward := state.s.reward + body.reward);
        if body.phase == Some(1) {
          state.s := state.s.(phase1 := true);
          if !body.followUp {
            state.s := state.s.(taskDone := true);
          }
        } else if body.phase == Some(2) {
          state.s := state.s.(phase2 := true, taskDone := true);
        }
      }
      state.s := state.s.(lastPassed := Some(body.passed));
    }

    /** `execute`: `answer` is what the wrapped port would answer if the call reaches it. */
    method Execute(name: string, answer: Answer) returns (end: CallEnd)
      requires state.Valid()
      modifies state
      ensures state.Valid() && state.log == old(state.log) + [Call(name, answer)]
      ensures state.s == Step(old(state.s), Call(name, answer)) && end == EndOf(old(state.s), name, answer)
    {
      var forwarded := GateBudget(name);
      end := if !forwarded then Refused else if answer == Exception then Thrown else Returned;
      if forwarded && name == SUBMIT && answer.Submitted? {
        ApplySubmitState(answer.body);
      }
      state.Record(Call(name, answer));
    }
  }
}
