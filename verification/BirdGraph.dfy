/** The active loop of one attempt: build, gate, complete, call tools, and destroy the private turns. */
module BirdGraph {
  import opened Common
  import opened ModelContracts
  import opened TurnStore
  import opened BirdSession
  import G = Gateway
  import B = ContextBuilder
  import ContextTheorems

  datatype Request = Request(
    scope: string, attempt: nat, current: B.Datum, facts: seq<B.Datum>, evidence: seq<B.Datum>,
    maxModelCalls: nat, maxToolCalls: nat)

  /** What the outside answers in model turn `t`: clock readings, provider replies, fresh turn ids, tools. */
  datatype Env = Env(
    now: nat -> nat -> int, replies: nat -> seq<G.Reply>, jitters: nat -> seq<real>, sentAt: nat -> seq<int>, ids: nat -> nat,
    cost: (Usage, int) -> Cost, results: (nat, nat) -> ToolResult, answers: (nat, nat) -> Answer,
    rejection: real -> string)

  datatype Ending =
    | Completed(content: string)
    | ModelLimit
    | ToolLimit
    | Repeated(evidence: seq<(string, string, string)>)
    | Gated(stop: Stop)
    | GatewayFailed(error: G.GatewayError)
    | Filtered
    | Incomplete
    | NoResource

  datatype Outcome = Outcome(end: Ending, modelCalls: nat, toolCalls: nat)

  datatype RunError =
    | PromptBundleMissing
    | BuilderRaised(cause: B.BuildError)
    | GatewayRaised(error: G.GatewayError)
    | BindingMismatch
    | ToolRaised(call: nat)
    | ExchangeNotClosed
    | UnsupportedFinish

  /** The gateway's own error class; the others leave `complete` as some other exception. */
  predicate IsGatewayError(e: G.GatewayError) {
    e != G.HeaderNotANumber && e != G.ResponseRefused && e != G.SummaryRefused
  }

  /** The evidence digest hashes name, arguments and result digest of each call, in order. */
  function Evidence(calls: seq<ToolCall>, results: seq<ToolResult>): seq<(string, string, string)>
    requires |calls| == |results|
  {
    seq(|calls|, i requires 0 <= i < |calls| => (calls[i].name, calls[i].arguments, results[i].sha))
  }

  function EvidenceOf(g: Group): seq<(string, string, string)> {
    if g.ToolExchange? && |g.calls| == |g.results| then Evidence(g.calls, g.results) else []
  }

  function CallsOf(evidence: seq<(string, string, string)>): seq<(string, string)> {
    seq(|evidence|, i requires 0 <= i < |evidence| => (evidence[i].0, evidence[i].1))
  }

  function CallsOfBatch(calls: seq<ToolCall>): seq<(string, string)> {
    seq(|calls|, i requires 0 <= i < |calls| => (calls[i].name, calls[i].arguments))
  }

  // ---- what a run leaves to explain its outcome ----

  /** Group `i` is the closed exchange of turn `i`, bound to the attempt. */
  predicate InSequence(r: Request, groups: seq<Group>) {
    forall i | 0 <= i < |groups| ::
      && groups[i].ToolExchange? && Closed(groups[i]) && Bound(groups[i], r.scope, r.attempt)
      && groups[i].turn.sequence == i
  }

  predicate Progresses(groups: seq<Group>) {
    forall i, j | 0 <= i < |groups| && j == i + 1 < |groups| :: EvidenceOf(groups[i]) != EvidenceOf(groups[j])
  }

  function TotalCalls(groups: seq<Group>): nat {
    if groups == [] then 0 else TotalCalls(groups[..|groups| - 1]) + CallCount(groups[|groups| - 1])
  }

  function CallCount(g: Group): nat {
    if g.ToolExchange? then |g.calls| else 0
  }

  /** Each response led to one group, in order, except the last, which may have ended the run. */
  predicate Heard(heard: seq<Response>, groups: seq<Group>) {
    && |groups| <= |heard| <= |groups| + 1
    && forall i | 0 <= i < |groups| :: groups[i].ToolExchange?
         && heard[i].output == Calls(groups[i].calls) && heard[i].turn == groups[i].turn
  }

  /** The ending and the two counts are those of the responses heard and the exchanges made. */
  predicate Explains(r: Request, o: Outcome, heard: seq<Response>, groups: seq<Group>) {
    match o.end
    case Completed(content) =>
      |heard| == |groups| + 1 && heard[|groups|].output == Final(content) && heard[|groups|].finish == FinishReason.Stop
      && o.modelCalls == |heard| && o.toolCalls == TotalCalls(groups)
    case Filtered =>
      |heard| == |groups| + 1 && heard[|groups|].output.Final? && heard[|groups|].finish == ContentFilter
      && o.modelCalls == |heard| && o.toolCalls == TotalCalls(groups)
    case Incomplete =>
      |heard| == |groups| + 1 && heard[|groups|].output.Final? && heard[|groups|].finish == Length
      && o.modelCalls == |heard| && o.toolCalls == TotalCalls(groups)
    case ToolLimit =>
      |heard| == |groups| + 1 && heard[|groups|].output.Calls?
      && TotalCalls(groups) + |heard[|groups|].output.calls| > r.maxToolCalls
      && o.modelCalls == |heard| && o.toolCalls == TotalCalls(groups)
    case Repeated(evidence) =>
      |heard| == |groups| + 1 && heard[|groups|].output.Calls? && groups != []
      && evidence == EvidenceOf(groups[|groups| - 1])
      && CallsOf(evidence) == CallsOfBatch(heard[|groups|].output.calls)
      && o.modelCalls == |heard| && o.toolCalls == TotalCalls(groups) + |heard[|groups|].output.calls|
    case ModelLimit =>
      |heard| == |groups| == r.maxModelCalls && o.modelCalls == |heard| && o.toolCalls == TotalCalls(groups)
    case Gated(stop) =>
      |heard| == |groups| < r.maxModelCalls && o.modelCalls == |heard| && o.toolCalls == TotalCalls(groups)
    case GatewayFailed(error) =>
      |heard| == |groups| < r.maxModelCalls && error !in {G.HeaderNotANumber, G.ResponseRefused, G.SummaryRefused}
      && error != G.HistoryBindingMismatch && error != G.HistorySequenceInvalid
      && o.modelCalls == |heard| + 1 && o.toolCalls == TotalCalls(groups)
    case NoResource => false
  }

  // ---- what a run leaves in the session log ----

  /** The log entries of executing the calls of turn `t`. */
  function CallEntries(calls: seq<ToolCall>, t: nat, env: Env): seq<Entry> {
    seq(|calls|, i requires 0 <= i < |calls| => Call(calls[i].name, env.answers(t, i)))
  }

  function BatchEntries(response: Response, t: nat, env: Env): seq<Entry> {
    if response.output.Calls? then CallEntries(response.output.calls, t, env) else []
  }

  /** Turn by turn: the model is asked, then the calls of its response are executed. */
  function Trace(heard: seq<Response>, n: nat, env: Env): seq<Entry>
    requires n <= |heard|
  {
    if n == 0 then [] else Trace(heard, n - 1, env) + [Ask] + BatchEntries(heard[n - 1], n - 1, env)
  }

  /** The batch up to and including its call `i`, the one that raised. */
  function UpToCall(response: Response, i: nat, t: nat, env: Env): seq<Entry> {
    var entries := BatchEntries(response, t, env);
    if i < |entries| then entries[..i + 1] else entries
  }

  /** What the turn in which the run ends adds, whichever way it ends. */
  function LastEntries(outcome: Result<Outcome, RunError>, heard: seq<Response>, n: nat, env: Env): seq<Entry> {
    match outcome
    case Ok(o) =>
      if o.end.ModelLimit? || o.end.Gated? then []
      else if o.end.Repeated? && n < |heard| then [Ask] + BatchEntries(heard[n], n, env)
      else [Ask]
    case Err(e) =>
      if e.PromptBundleMissing? || e.BuilderRaised? then []
      else if e.ToolRaised? && n < |heard| then [Ask] + UpToCall(heard[n], e.call, n, env)
      else if e.ExchangeNotClosed? && n < |heard| then [Ask] + BatchEntries(heard[n], n, env)
      else [Ask]
  }

  /** The result of call `i` of turn `t`: the tool's answer when the gate forwards it in the state it is
      reached in, and the gate's rejection under the call's own id and name otherwise. */
  function ResultOf(call: ToolCall, t: nat, i: nat, env: Env, s: State): ToolResult {
    if Gate(s, call.name).1 then env.results(t, i) else Rejection(call, env.rejection(Remaining(s)))
  }

  function Rejection(call: ToolCall, text: string): ToolResult {
    ToolResult(call.id, call.name, Json(text), text, text, None, true)
  }

  /** The results of a batch executed from session state `s`. */
  function ResultsOf(calls: seq<ToolCall>, t: nat, env: Env, s: State): (results: seq<ToolResult>)
    ensures |results| == |calls|
  {
    seq(|calls|, i requires 0 <= i < |calls| => ResultOf(calls[i], t, i, env, After(s, CallEntries(calls, t, env)[..i])))
  }

  /** Call `i` of a batch executed from session state `s` raises. */
  predicate Throws(calls: seq<ToolCall>, t: nat, env: Env, s: State, i: nat) {
    i < |calls| && EndOf(After(s, CallEntries(calls, t, env)[..i]), calls[i].name, env.answers(t, i)) == Thrown
  }

  predicate NoneThrows(calls: seq<ToolCall>, t: nat, env: Env, s: State, n: nat) {
    forall i | 0 <= i < n :: !Throws(calls, t, env, s, i)
  }

  /** Some result carries another id or name than its call. */
  predicate Misnamed(calls: seq<ToolCall>, results: seq<ToolResult>)
    requires |calls| == |results|
  {
    exists i | 0 <= i < |calls| :: results[i].callId != calls[i].id || results[i].name != calls[i].name
  }

  /** The error that ended the run is that of the responses heard and the exchanges made; `s` is the session
      state in which the last batch was started. The binding and finish-reason errors and the history errors
      of builder and gateway never surface. */
  predicate Fails(r: Request, e: RunError, heard: seq<Response>, groups: seq<Group>, env: Env, s: State) {
    match e
    case PromptBundleMissing => r.maxModelCalls == 0 && heard == []
    case BuilderRaised(cause) =>
      |heard| == |groups| && cause in {B.NamespaceViolation, B.MandatoryOverBudget, B.EstimateChangedAfterHashing}
    case GatewayRaised(error) =>
      |heard| == |groups| && error in {G.HeaderNotANumber, G.ResponseRefused, G.SummaryRefused}
    case ToolRaised(i) =>
      |heard| == |groups| + 1 && heard[|groups|].output.Calls?
      && TotalCalls(groups) + |heard[|groups|].output.calls| <= r.maxToolCalls
      && Throws(heard[|groups|].output.calls, |groups|, env, s, i)
      && NoneThrows(heard[|groups|].output.calls, |groups|, env, s, i)
    case ExchangeNotClosed =>
      |heard| == |groups| + 1 && heard[|groups|].output.Calls?
      && TotalCalls(groups) + |heard[|groups|].output.calls| <= r.maxToolCalls
      && NoneThrows(heard[|groups|].output.calls, |groups|, env, s, |heard[|groups|].output.calls|)
      && Misnamed(heard[|groups|].output.calls, ResultsOf(heard[|groups|].output.calls, |groups|, env, s))
    case BindingMismatch => false
    case UnsupportedFinish => false
  }

  /** What the gateway promises of a response's output: a batch the turn reference expects, or a final text
      whose finish reason is neither tool calls nor a lack of resources. */
  predicate Usable(response: Response) {
    match response.output
    case Calls(calls) => 1 <= |calls| <= 8 && CallIds(calls) == response.turn.expected
    case Final(_) => response.finish != ToolCalls && response.finish != InsufficientSystemResource
  }

  ghost predicate Provided(env: Env, policy: G.RetryPolicy) {
    forall t: nat :: |env.replies(t)| == |env.jitters(t)| == |env.sentAt(t)| == policy.maximum
  }

  /** Fresh ids: unused in the store from turn `t` on, and all different. */
  ghost predicate Fresh(env: Env, turns: Turns, t: nat) {
    && (forall u: nat | u >= t :: env.ids(u) !in turns)
    && (forall u: nat, v: nat | u < v :: env.ids(u) != env.ids(v))
  }

  // ---- what the model is asked ----

  predicate NamespacesOk(r: Request, allowed: set<nat>) {
    && r.current.namespace in allowed && (forall d <- r.facts :: d.namespace in allowed)
    && forall d <- r.evidence :: d.namespace in allowed
  }

  /** The bundle is what the context builder makes of these exchanges and the request's evidence. */
  predicate BuiltFrom(e: B.Estimator, r: Request, groups: seq<Group>, p: B.Profile, bundle: B.Bundle) {
    NamespacesOk(r, p.namespaces) && B.Built(e, groups, r.evidence, p) == Ok(bundle)
  }

  /** Bundle `t` is built from the exchanges of the turns before `t`. */
  predicate BuiltInTurn(e: B.Estimator, r: Request, groups: seq<Group>, p: B.Profile, bundles: seq<B.Bundle>) {
    |bundles| <= |groups| + 1 && forall t | 0 <= t < |bundles| :: BuiltFrom(e, r, groups[..t], p, bundles[t])
  }

  /** How a turn begins: with a response, an ending before one, or an exception. */
  datatype Begun = Answers(bundle: B.Bundle, response: Response) | Stops(bundle: B.Bundle, end: Ending) | Breaks(error: RunError)
  {
    predicate Asked() {
      Answers? || (Stops? && !end.Gated?) || (Breaks? && !error.BuilderRaised?)
    }
  }

  /** How one turn goes on: another exchange, an ending, or an exception. */
  datatype Next = Continue(group: Group) | End(end: Ending) | Raise(error: RunError)

  class BirdAGraph {
    const estimator: B.Estimator
    const profile: B.Profile
    const gateway: G.DeepSeekModelGateway
    const port: BirdSessionStatePort
    const store: InMemoryProviderTurnStore
    const ablation: bool
    const revision: string
    const outputTokens: nat

    constructor (estimator: B.Estimator, profile: B.Profile, gateway: G.DeepSeekModelGateway, port: BirdSessionStatePort,
        ablation: bool, revision: string, outputTokens: nat)
      ensures this.store == gateway.store && this.gateway == gateway && this.port == port && this.ablation == ablation
    {
      this.estimator, this.profile, this.gateway, this.port := estimator, profile, gateway, port;
      this.store, this.ablation := gateway.store, ablation;
      this.revision, this.outputTokens := revision, outputTokens;
    }

    ghost predicate Valid()
      reads this, port.state
    {
      && store == gateway.store && gateway.policy.Valid()
      && port.state.Valid() && port.state.ablation == ablation
    }

    /** The context request of turn `t`: its sequence is the number of model calls so far. */
    function ContextRequest(r: Request, groups: seq<Group>): B.Request {
      B.Request(r.scope, r.attempt, |groups|, r.current, r.facts, r.evidence, groups)
    }

    function ModelRequest(r: Request, bundle: B.Bundle, sequence: nat): G.Request {
      G.Request(r.scope, r.attempt, sequence, bundle.history, revision, outputTokens, true, Some("max"))
    }

    /** The request of turn `t` carries the history of bundle `t`, and that turn's number. */
    function Requests(r: Request, bundles: seq<B.Bundle>): seq<G.Request> {
      seq(|bundles|, t requires 0 <= t < |bundles| => ModelRequest(r, bundles[t], t))
    }

    /** The gateway has been asked for one completion after another, each with the bundle built in its turn from
        the exchanges before it. */
    predicate Asks(before: seq<G.Request>, after: seq<G.Request>, r: Request, groups: seq<Group>, bundles: seq<B.Bundle>) {
      after == before + Requests(r, bundles) && BuiltInTurn(estimator, r, groups, profile, bundles)
    }

    lemma AsksNothing(before: seq<G.Request>, r: Request)
      ensures Asks(before, before, r, [], [])
    {
      assert Requests(r, []) == [];
    }

    /** Request `t` carries the history of bundle `t`, the binding and number of its turn, the profile's revision and
        token limit, and asks for tools at the highest effort. */
    lemma RequestsCarry(r: Request, bundles: seq<B.Bundle>, t: nat)
      requires t < |bundles|
      ensures |Requests(r, bundles)| == |bundles|
      ensures var q := Requests(r, bundles)[t];
        && q.scope == r.scope && q.attempt == r.attempt && q.sequence == t && q.history == bundles[t].history
        && q.revision == revision && q.outputTokens == outputTokens && q.tools && q.effort == Some("max")
    {
    }

    lemma RequestsGrow(r: Request, bundles: seq<B.Bundle>, b: B.Bundle)
      ensures Requests(r, bundles + [b]) == Requests(r, bundles) + [ModelRequest(r, b, |bundles|)]
    {
      hide ModelRequest;
    }

    lemma AsksOnce(before: seq<G.Request>, after: seq<G.Request>, r: Request, groups: seq<Group>, bundles: seq<B.Bundle>,
        b: B.Bundle)
      requires Asks(before, after, r, groups, bundles) && |bundles| == |groups|
      requires NamespacesOk(r, profile.namespaces) && B.Built(estimator, groups, r.evidence, profile) == Ok(b)
      ensures Asks(before, after + [ModelRequest(r, b, |groups|)], r, groups, bundles + [b])
    {
      hide B.Built, NamespacesOk, ModelRequest, Requests, BuiltInTurn;
      assert BuiltFrom(estimator, r, groups, profile, b);
      hide BuiltFrom;
      RequestsGrow(r, bundles, b);
      OneMoreBundle(estimator, r, groups, profile, bundles, b);
    }

    lemma AsksOn(before: seq<G.Request>, after: seq<G.Request>, r: Request, groups: seq<Group>, bundles: seq<B.Bundle>, g: Group)
      requires Asks(before, after, r, groups, bundles)
      ensures Asks(before, after, r, groups + [g], bundles)
    {
      hide B.Built;
      BuiltInTurnGrows(estimator, r, groups, profile, bundles, g);
    }

    /** Executes the calls of one turn in order, until one raises. */
    method RunTools(calls: seq<ToolCall>, t: nat, env: Env) returns (results: Result<seq<ToolResult>, nat>)
      requires port.state.Valid()
      modifies port.state
      ensures port.state.Valid()
      ensures results.Ok? ==>
        && port.state.log == old(port.state.log) + CallEntries(calls, t, env)
        && NoneThrows(calls, t, env, old(port.state.s), |calls|)
        && results.value == ResultsOf(calls, t, env, old(port.state.s))
      ensures results.Err? ==>
        && results.error < |calls| == |CallEntries(calls, t, env)|
        && port.state.log == old(port.state.log) + CallEntries(calls, t, env)[..results.error + 1]
        && NoneThrows(calls, t, env, old(port.state.s), results.error)
        && Throws(calls, t, env, old(port.state.s), results.error)
    {
      hide Step, IsLog, Gate, StopModelTurn, AfterTool, After, CallEntries;
      ghost var s0, entries := port.state.s, CallEntries(calls, t, env);
      NoEntries(s0, calls, t, env);
      var made: seq<ToolResult> := [];
      var i := 0;
      while i < |calls|
        invariant i <= |calls| == |entries| && made == ResultsOf(calls, t, env, s0)[..i]
        invariant port.state.Valid() && port.state.s == After(s0, entries[..i])
        invariant port.state.log == old(port.state.log) + entries[..i]
        invariant NoneThrows(calls, t, env, s0, i)
      {
        var text := env.rejection(Remaining(port.state.s));
        NextEntry(s0, calls, t, env, i);
        var end := port.Execute(calls[i].name, env.answers(t, i));
        if end == Thrown {
          return Err(i);
        }
        made := made + [if end == Returned then env.results(t, i) else Rejection(calls[i], text)];
        i := i + 1;
      }
      assert entries[..i] == entries;
      return Ok(made);
    }

    /** Builds the bundle of a turn from the exchanges so far: only namespaces, budget and hashing can be refused. */
    method BuildBundle(r: Request, groups: seq<Group>) returns (built: Result<B.Bundle, B.BuildError>)
      requires InSequence(r, groups)
      ensures built == if NamespacesOk(r, profile.namespaces) then B.Built(estimator, groups, r.evidence, profile)
                       else Err(B.NamespaceViolation)
      ensures built.Ok? ==> B.HistoryOk(built.value.history, r.scope, r.attempt, |groups|)
      ensures built.Err? ==>
        built.error in {B.NamespaceViolation, B.MandatoryOverBudget, B.EstimateChangedAfterHashing}
    {
      var request := ContextRequest(r, groups);
      InSequenceIsHistoryOk(r, groups);
      var invalid := B.ValidateRequest(request, profile);
      AllDatums(r, request, profile.namespaces);
      if invalid.Some? {
        return Err(invalid.value);
      }
      built := B.Build(estimator, groups, r.evidence, profile);
      ContextTheorems.BuiltHistoryOk(estimator, request, profile);
    }

    /** One completion; the session log notes that the model was asked. */
    method AskModel(r: Request, bundle: B.Bundle, t: nat, env: Env, ghost before: Turns)
      returns (result: Result<Response, G.GatewayError>)
      requires Valid() && Provided(env, gateway.policy) && Fresh(env, store.turns, t)
      requires B.HistoryOk(bundle.history, r.scope, r.attempt, t)
      requires StopModelTurn(port.state.s, ablation).None? && LeavesOthersOf(before, store.turns, r)
      modifies port.state, store, gateway`asked
      ensures gateway.asked == old(gateway.asked) + [ModelRequest(r, bundle, t)]
      ensures Valid() && Fresh(env, store.turns, t + 1)
      ensures LeavesOthersOf(before, store.turns, r)
      ensures port.state.log == old(port.state.log) + [Ask]
      ensures result.Ok? ==>
        && result.value.turn.scope == r.scope && result.value.turn.attempt == r.attempt && result.value.turn.sequence == t
        && Usable(result.value)
      ensures result.Err? ==> result.error != G.HistoryBindingMismatch && result.error != G.HistorySequenceInvalid
    {
      ghost var turns := store.turns;
      port.state.Record(Ask);
      var attempts, slept, sent;
      assert G.HistoryBound(ModelRequest(r, bundle, t)) by {
        hide Closed;
      }
      hide B.HistoryOk;
      result, attempts, slept, sent := gateway.Complete(ModelRequest(r, bundle, t), env.now(t), env.replies(t), env.jitters(t),
        env.cost, env.sentAt(t), env.ids(t));
      OthersTransitively(before, turns, store.turns, r);
    }

    /** The tool branch of one turn: limit, execution, repeated evidence, and the closed exchange. */
    method UseTools(r: Request, response: Response, groups: seq<Group>, toolCalls: nat,
        lastEvidence: Option<seq<(string, string, string)>>, t: nat, env: Env)
      returns (next: Next)
      requires Valid() && response.output.Calls? && toolCalls == TotalCalls(groups) && Usable(response)
      requires lastEvidence == if groups == [] then None else Some(EvidenceOf(groups[|groups| - 1]))
      modifies port.state
      ensures Valid()
      ensures port.state.log == old(port.state.log) + Executed(response, next, t, env)
      ensures UsesTools(r, response, groups, next, t, env, old(port.state.s))
    {
      var calls := response.output.calls;
      if toolCalls + |calls| > r.maxToolCalls {
        return End(ToolLimit);
      }
      var made := RunTools(calls, t, env);
      if made.Err? {
        return Raise(ToolRaised(made.error));
      }
      var results := made.value;
      var evidence := Evidence(calls, results);
      if lastEvidence == Some(evidence) {
        return End(Repeated(evidence));
      }
      var group := ToolExchange(response.turn, calls, results);
      if !Closed(group) {
        return Raise(ExchangeNotClosed);
      }
      return Continue(group);
    }

    /** A final text ends the run by its finish reason. */
    method Finish(response: Response) returns (next: Next)
      requires response.output.Final?
      ensures next == match response.finish
        case Stop => End(Completed(response.output.content))
        case ContentFilter => End(Filtered)
        case Length => End(Incomplete)
        case InsufficientSystemResource => End(NoResource)
        case ToolCalls => Raise(UnsupportedFinish)
    {
      if response.finish != FinishReason.Stop {
        if response.finish == ContentFilter {
          return End(Filtered);
        }
        if response.finish == Length {
          return End(Incomplete);
        }
        if response.finish == InsufficientSystemResource {
          return End(NoResource);
        }
        return Raise(UnsupportedFinish);
      }
      return End(Completed(response.output.content));
    }

    /** The rest of a turn once a response is bound. */
    method Follow(r: Request, response: Response, groups: seq<Group>, toolCalls: nat,
        lastEvidence: Option<seq<(string, string, string)>>, t: nat, env: Env)
      returns (next: Next)
      requires Valid() && toolCalls == TotalCalls(groups) && InSequence(r, groups)
      requires lastEvidence == if groups == [] then None else Some(EvidenceOf(groups[|groups| - 1]))
      requires Usable(response)
      modifies port.state
      ensures Valid() && port.state.log == old(port.state.log) + Executed(response, next, t, env)
      ensures Follows(r, response, groups, next, t, env, old(port.state.s))
    {
      hide Closed, InSequence, TotalCalls, EvidenceOf, After, Step, IsLog, CallsOf, CallsOfBatch, ResultsOf, CallEntries;
      if response.output.Calls? {
        next := UseTools(r, response, groups, toolCalls, lastEvidence, t, env);
        UsedFollows(r, response, groups, next, t, env, old(port.state.s));
      } else {
        next := Finish(response);
        assert port.state.log == old(port.state.log) + [];
      }
    }

    /** A turn up to the response: build the bundle, ask the gate, ask the model. */
    method BeginTurn(r: Request, groups: seq<Group>, env: Env, ghost before: Turns, ghost asked: seq<G.Request>,
        ghost earlier: seq<B.Bundle>)
      returns (begun: Begun, ghost bundles: seq<B.Bundle>)
      requires Valid() && Provided(env, gateway.policy) && Fresh(env, store.turns, |groups|) && InSequence(r, groups)
      requires LeavesOthersOf(before, store.turns, r)
      requires Asks(asked, gateway.asked, r, groups, earlier) && |earlier| == |groups|
      modifies port.state, store, gateway`asked
      ensures Valid() && LeavesOthersOf(before, store.turns, r) && Asks(asked, gateway.asked, r, groups, bundles)
      ensures |bundles| == |groups| + (if begun.Asked() then 1 else 0)
      ensures port.state.log == old(port.state.log) + (if begun.Asked() then [Ask] else [])
      ensures begun.Asked() ==> !Stopping(old(port.state.s))
      ensures begun == Breaks(BuilderRaised(B.MandatoryOverBudget)) <==>
        NamespacesOk(r, profile.namespaces) && ContextTheorems.Exhausted(estimator, groups, r.evidence, profile)
      ensures begun.Answers? ==>
        && Fresh(env, store.turns, |groups| + 1) && Usable(begun.response) && begun.response.turn.scope == r.scope
        && begun.response.turn.attempt == r.attempt && begun.response.turn.sequence == |groups|
      ensures begun.Stops? ==>
        && (begun.end.Gated? || begun.end.GatewayFailed?)
        && (begun.end.Gated? ==> StopModelTurn(port.state.s, ablation) == Some(begun.end.stop))
        && (begun.end.GatewayFailed? ==>
             && IsGatewayError(begun.end.error) && begun.end.error != G.HistoryBindingMismatch
             && begun.end.error != G.HistorySequenceInvalid)
      ensures begun.Breaks? ==>
        && (begun.error.BuilderRaised? || begun.error.GatewayRaised?)
        && (begun.error.BuilderRaised? ==>
             begun.error.cause in {B.NamespaceViolation, B.MandatoryOverBudget, B.EstimateChangedAfterHashing})
        && (begun.error.GatewayRaised? ==> !IsGatewayError(begun.error.error))
    {
      hide Closed, InSequence, After, Step, IsLog, Usable, G.LeavesOthers, LeavesOthersOf, Fresh, Provided, B.HistoryOk, Stopping;
      hide StopModelTurn, Gate, Remaining, DeleteAttempt, OfAttempt, RefOf, NamespacesOk, B.Built, Asks, ModelRequest;
      hide ContextTheorems.Exhausted;
      bundles := earlier;
      var built := BuildBundle(r, groups);
      ContextTheorems.ErrorExact(estimator, groups, r.evidence, profile);
      if built.Err? {
        return Breaks(BuilderRaised(built.error)), bundles;
      }
      var bundle := built.value;
      var stop := StopModelTurn(port.state.s, ablation);
      if stop.Some? {
        return Stops(bundle, Gated(stop.value)), bundles;
      }
      NotStopping(port.state.s, ablation);
      AsksOnce(asked, gateway.asked, r, groups, bundles, bundle);
      bundles := bundles + [bundle];
      var answered := AskModel(r, bundle, |groups|, env, before);
      if answered.Ok? {
        return Answers(bundle, answered.value), bundles;
      }
      if IsGatewayError(answered.error) {
        return Stops(bundle, GatewayFailed(answered.error)), bundles;
      }
      return Breaks(GatewayRaised(answered.error)), bundles;
    }

    /** `_run_attempt`. Every response heard and every exchange made are returned as evidence of the run. */
    method RunAttempt(r: Request, env: Env)
      returns (outcome: Result<Outcome, RunError>, ghost heard: seq<Response>, ghost made: seq<Group>,
        ghost bundles: seq<B.Bundle>)
      requires Valid() && Provided(env, gateway.policy) && Fresh(env, store.turns, 0)
      modifies port.state, store, gateway`asked
      ensures Asks(old(gateway.asked), gateway.asked, r, made, bundles) && |heard| <= |bundles| <= |heard| + 1
      ensures outcome == Err(BuilderRaised(B.MandatoryOverBudget)) <==>
        |made| < r.maxModelCalls && NamespacesOk(r, profile.namespaces)
        && ContextTheorems.Exhausted(estimator, made, r.evidence, profile)
      ensures Valid() && |made| <= |heard|
      ensures port.state.log == old(port.state.log) + Trace(heard, |made|, env) + LastEntries(outcome, heard, |made|, env)
      ensures LeavesOthersOf(old(store.turns), store.turns, r)
      ensures InSequence(r, made) && Progresses(made) && Heard(heard, made)
      ensures |heard| <= r.maxModelCalls && TotalCalls(made) <= r.maxToolCalls
      ensures outcome.Ok? ==>
        && Explains(r, outcome.value, heard, made)
        && outcome.value.modelCalls <= r.maxModelCalls && outcome.value.toolCalls <= r.maxToolCalls
        && (outcome.value.end.Gated? ==> StopModelTurn(port.state.s, ablation) == Some(outcome.value.end.stop))
      ensures outcome == Err(PromptBundleMissing) <==> r.maxModelCalls == 0
      ensures outcome.Err? ==> Fails(r, outcome.error, heard, made, env,
        After(port.state.start, old(port.state.log) + Trace(heard, |made|, env) + [Ask]))
      ensures Stopping(old(port.state.s)) ==> heard == [] && (outcome.Ok? ==> outcome.value.modelCalls == 0)
    {
      hide Closed, InSequence, Progresses, Heard, Explains, Fails, TotalCalls, EvidenceOf, After, Step, IsLog, Trace,
        LastEntries, Executed, Usable;
      hide G.LeavesOthers, LeavesOthersOf, Fresh, Provided, B.HistoryOk, Stopping, StopModelTurn, Follows, Gate, Remaining;
      hide DeleteAttempt, OfAttempt, RefOf, NamespacesOk, B.Built, Asks, ModelRequest, ContextTheorems.Exhausted;
      var history: seq<Group> := [];
      var modelCalls, toolCalls := 0, 0;
      var lastEvidence: Option<seq<(string, string, string)>> := None;
      var bundle: Option<B.Bundle> := None;
      heard, made, bundles := [], [], [];
      NothingYet(r, store.turns);
      AsksNothing(gateway.asked, r);
      while true
        invariant Valid()
        invariant made == history && |history| == |heard| == modelCalls <= r.maxModelCalls
        invariant port.state.log == old(port.state.log) + Trace(heard, modelCalls, env)
        invariant LeavesOthersOf(old(store.turns), store.turns, r) && Fresh(env, store.turns, modelCalls)
        invariant InSequence(r, history) && Progresses(history) && Heard(heard, history)
        invariant toolCalls == TotalCalls(history) <= r.maxToolCalls
        invariant lastEvidence == if history == [] then None else Some(EvidenceOf(history[|history| - 1]))
        invariant bundle.Some? <==> modelCalls > 0
        invariant |bundles| == modelCalls && Asks(old(gateway.asked), gateway.asked, r, history, bundles)
        invariant Stopping(old(port.state.s)) ==> modelCalls == 0 && port.state.s == old(port.state.s)
        decreases r.maxModelCalls - modelCalls
      {
        if modelCalls >= r.maxModelCalls {
          if bundle.None? {
            EarlyFails(r, PromptBundleMissing, heard, made, env);
            return Err(PromptBundleMissing), heard, made, bundles;
          }
          EarlyExplained(r, Outcome(ModelLimit, modelCalls, toolCalls), heard, made);
          LastOf(Outcome(ModelLimit, modelCalls, toolCalls), heard, |made|, env);
          return Ok(Outcome(ModelLimit, modelCalls, toolCalls)), heard, made, bundles;
        }
        var begun;
        begun, bundles := BeginTurn(r, history, env, old(store.turns), old(gateway.asked), bundles);
        if begun.Breaks? {
          EarlyFails(r, begun.error, heard, made, env);
          return Err(begun.error), heard, made, bundles;
        }
        bundle := Some(begun.bundle);
        if begun.Stops? {
          var asked := modelCalls + if begun.end.Gated? then 0 else 1;
          EarlyExplained(r, Outcome(begun.end, asked, toolCalls), heard, made);
          LastOf(Outcome(begun.end, asked, toolCalls), heard, |made|, env);
          return Ok(Outcome(begun.end, asked, toolCalls)), heard, made, bundles;
        }
        var response := begun.response;
        if response.turn.scope != r.scope || response.turn.attempt != r.attempt || response.turn.sequence != modelCalls {
          return Err(RunError.BindingMismatch), heard, made, bundles;
        }
        HeardOne(heard, history, response);
        TraceKept(heard, response, modelCalls, env);
        heard := heard + [response];
        modelCalls := modelCalls + 1;
        ghost var before := port.state.s;
        var next := Follow(r, response, history, toolCalls, lastEvidence, modelCalls - 1, env);
        FollowsExplained(r, heard, history, response, next, env, before);
        TraceGrows(heard, response, next, modelCalls - 1, env);
        if next.Raise? {
          return Err(next.error), heard, made, bundles;
        }
        if next.End? {
          var counted := toolCalls + if next.end.Repeated? then |response.output.calls| else 0;
          return Ok(Outcome(next.end, modelCalls, counted)), heard, made, bundles;
        }
        toolCalls := toolCalls + |response.output.calls|;
        lastEvidence := Some(EvidenceOf(next.group));
        AsksOn(old(gateway.asked), gateway.asked, r, history, bundles, next.group);
        history := history + [next.group];
        made := history;
      }
    }

    /** `run`: the private turns of the attempt are destroyed however the attempt ends. */
    method Run(r: Request, env: Env)
      returns (outcome: Result<Outcome, RunError>, ghost heard: seq<Response>, ghost made: seq<Group>,
        ghost bundles: seq<B.Bundle>)
      requires Valid() && Provided(env, gateway.policy) && Fresh(env, store.turns, 0)
      modifies port.state, store, gateway`asked
      ensures Asks(old(gateway.asked), gateway.asked, r, made, bundles) && |heard| <= |bundles| <= |heard| + 1
      ensures outcome == Err(BuilderRaised(B.MandatoryOverBudget)) <==>
        |made| < r.maxModelCalls && NamespacesOk(r, profile.namespaces)
        && ContextTheorems.Exhausted(estimator, made, r.evidence, profile)
      ensures Valid() && |made| <= |heard|
      ensures port.state.log == old(port.state.log) + Trace(heard, |made|, env) + LastEntries(outcome, heard, |made|, env)
      ensures store.turns == DeleteAttempt(old(store.turns), r.scope, r.attempt)
      ensures InSequence(r, made) && Progresses(made) && Heard(heard, made)
      ensures |heard| <= r.maxModelCalls && TotalCalls(made) <= r.maxToolCalls
      ensures outcome.Ok? ==>
        && Explains(r, outcome.value, heard, made)
        && outcome.value.modelCalls <= r.maxModelCalls && outcome.value.toolCalls <= r.maxToolCalls
        && (outcome.value.end.Gated? ==> StopModelTurn(port.state.s, ablation) == Some(outcome.value.end.stop))
      ensures outcome == Err(PromptBundleMissing) <==> r.maxModelCalls == 0
      ensures outcome.Err? ==> Fails(r, outcome.error, heard, made, env,
        After(port.state.start, old(port.state.log) + Trace(heard, |made|, env) + [Ask]))
      ensures Stopping(old(port.state.s)) ==> heard == [] && (outcome.Ok? ==> outcome.value.modelCalls == 0)
    {
      ghost var before := store.turns;
      outcome, heard, made, bundles := RunAttempt(r, env);
      DeletingErases(before, store.turns, r);
      store.DeleteTurns(r.scope, r.attempt);
    }
  }

  ghost predicate LeavesOthersOf(before: Turns, after: Turns, r: Request) {
    G.LeavesOthers(before, after, r.scope, r.attempt)
  }

  /** Erasing the attempt afterwards leaves exactly the other attempts' turns of before. */
  lemma DeletingErases(before: Turns, after: Turns, r: Request)
    requires LeavesOthersOf(before, after, r)
    ensures DeleteAttempt(after, r.scope, r.attempt) == DeleteAttempt(before, r.scope, r.attempt)
  {
  }

  lemma InSequenceIsHistoryOk(r: Request, groups: seq<Group>)
    requires InSequence(r, groups)
    ensures B.HistoryOk(groups, r.scope, r.attempt, |groups|)
  {
    hide Closed;
    assert forall i | 0 <= i < |groups| :: Sequences(groups)[i] == i;
  }

  /** A bundle the model was asked with fits the budget, and the stages were not exhausted on its exchanges. */
  lemma AskedWithinBudget(e: B.Estimator, r: Request, groups: seq<Group>, p: B.Profile, bundles: seq<B.Bundle>, t: nat)
    requires BuiltInTurn(e, r, groups, p, bundles) && t < |bundles|
    ensures NamespacesOk(r, p.namespaces) && e(bundles[t].history, bundles[t].evidence, true) <= p.limit
    ensures !ContextTheorems.Exhausted(e, groups[..t], r.evidence, p)
  {
    assert BuiltFrom(e, r, groups[..t], p, bundles[t]);
    hide B.Built, ContextTheorems.Exhausted, BuiltInTurn, NamespacesOk;
    ContextTheorems.ErrorExact(e, groups[..t], r.evidence, p);
    ContextTheorems.GroupsAccounted(e, groups[..t], r.evidence, p);
  }

  /** What it carries is accounted for against the exchanges of the turns before: groups, results, evidence. */
  lemma AskedAccounted(e: B.Estimator, r: Request, groups: seq<Group>, p: B.Profile, bundles: seq<B.Bundle>, t: nat)
      returns (kept: seq<nat>, removed: seq<nat>, at: seq<(nat, nat)>)
    requires BuiltInTurn(e, r, groups, p, bundles) && t < |bundles| && t <= |groups|
    ensures var b := bundles[t];
      && |b.trimming.removedGroups| + |b.history| == t && b.trimming.removedGroups == groups[..t][..t - |b.history|]
      && ContextTheorems.SharedOut(r.evidence, b.evidence, b.trimming.removedEvidence, kept, removed)
      && var recent := groups[..t][t - |b.history|..];
         at <= B.Raws(recent) && ContextTheorems.SummarisedAt(recent, b.history, at)
  {
    assert BuiltFrom(e, r, groups[..t], p, bundles[t]);
    hide B.Built, BuiltInTurn, NamespacesOk, ContextTheorems.SharedOut, ContextTheorems.SummarisedAt, B.Raws;
    kept, removed, at := ContextTheorems.NothingUnaccounted(e, groups[..t], r.evidence, p);
  }

  /** Two batches have the same evidence exactly if their calls agree in names and arguments and their results in
      digests, one by one. */
  lemma SameEvidenceExactly(calls: seq<ToolCall>, results: seq<ToolResult>, calls': seq<ToolCall>, results': seq<ToolResult>)
    requires |calls| == |results| && |calls'| == |results'|
    ensures Evidence(calls, results) == Evidence(calls', results') <==>
      |calls| == |calls'| && forall i | 0 <= i < |calls| ::
        calls[i].name == calls'[i].name && calls[i].arguments == calls'[i].arguments && results[i].sha == results'[i].sha
  {
    var a, b := Evidence(calls, results), Evidence(calls', results');
    if a == b {
      forall i | 0 <= i < |calls|
        ensures calls[i].name == calls'[i].name && calls[i].arguments == calls'[i].arguments && results[i].sha == results'[i].sha
      {
        assert a[i] == b[i];
      }
    }
  }

  /** A refused call is answered under its own id and name, with the gate's text and no forwarding. */
  lemma RefusalAnswers(call: ToolCall, t: nat, i: nat, env: Env, s: State)
    ensures EndOf(s, call.name, env.answers(t, i)) == Refused ==>
      var result := ResultOf(call, t, i, env, s);
      && result.callId == call.id && result.name == call.name && result.raw
      && result.content == Json(env.rejection(Remaining(s)))
    ensures EndOf(s, call.name, env.answers(t, i)) != Refused ==> ResultOf(call, t, i, env, s) == env.results(t, i)
  {
    hide Gate, Remaining;
  }

  lemma AllDatums(r: Request, request: B.Request, allowed: set<nat>)
    requires request.current == r.current && request.facts == r.facts && request.evidence == r.evidence
    ensures (forall d <- B.Datums(request) :: d.namespace in allowed) <==> NamespacesOk(r, allowed)
  {
    assert B.Datums(request)[0] == r.current;
    assert forall d :: d in B.Datums(request) <==> d == r.current || d in r.facts || d in r.evidence;
  }

  // ---- what the loops need of their evidence ----

  lemma BuiltInTurnGrows(e: B.Estimator, r: Request, groups: seq<Group>, p: B.Profile, bundles: seq<B.Bundle>, g: Group)
    requires BuiltInTurn(e, r, groups, p, bundles)
    ensures BuiltInTurn(e, r, groups + [g], p, bundles)
  {
    hide BuiltFrom;
    assert forall t | 0 <= t < |bundles| :: (groups + [g])[..t] == groups[..t];
  }

  lemma OneMoreBundle(e: B.Estimator, r: Request, groups: seq<Group>, p: B.Profile, bundles: seq<B.Bundle>, b: B.Bundle)
    requires BuiltInTurn(e, r, groups, p, bundles) && |bundles| == |groups| && BuiltFrom(e, r, groups, p, b)
    ensures BuiltInTurn(e, r, groups, p, bundles + [b])
  {
    hide BuiltFrom;
    var more := bundles + [b];
    forall t | 0 <= t < |more|
      ensures BuiltFrom(e, r, groups[..t], p, more[t])
    {
      assert groups[..|groups|] == groups;
    }
  }

  lemma NoEntries(s: State, calls: seq<ToolCall>, t: nat, env: Env)
    ensures |CallEntries(calls, t, env)| == |calls| && After(s, CallEntries(calls, t, env)[..0]) == s
  {
  }

  lemma NextEntry(s: State, calls: seq<ToolCall>, t: nat, env: Env, i: nat)
    requires i < |calls|
    ensures var entries := CallEntries(calls, t, env);
      && |entries| == |calls|
      && entries[..i + 1] == entries[..i] + [Call(calls[i].name, env.answers(t, i))]
      && After(s, entries[..i + 1]) == Step(After(s, entries[..i]), Call(calls[i].name, env.answers(t, i)))
      && ResultsOf(calls, t, env, s)[i] == ResultOf(calls[i], t, i, env, After(s, entries[..i]))
  {
    hide Step, ResultOf;
    var entries := CallEntries(calls, t, env);
    assert entries[..i + 1][..i] == entries[..i];
  }

  lemma NothingYet(r: Request, turns: Turns)
    ensures InSequence(r, []) && Progresses([]) && Heard([], []) && TotalCalls([]) == 0
    ensures forall env: Env :: Trace([], 0, env) == []
    ensures LeavesOthersOf(turns, turns, r)
  {
  }

  lemma EarlyExplained(r: Request, o: Outcome, heard: seq<Response>, groups: seq<Group>)
    requires |heard| == |groups| <= r.maxModelCalls && o.toolCalls == TotalCalls(groups)
    requires match o.end
      case ModelLimit => |groups| == r.maxModelCalls && o.modelCalls == |heard|
      case Gated(_) => |groups| < r.maxModelCalls && o.modelCalls == |heard|
      case GatewayFailed(error) =>
        && |groups| < r.maxModelCalls && o.modelCalls == |heard| + 1 && IsGatewayError(error)
        && error != G.HistoryBindingMismatch && error != G.HistorySequenceInvalid
      case Completed(_) => false
      case ToolLimit => false
      case Repeated(_) => false
      case Filtered => false
      case Incomplete => false
      case NoResource => false
    ensures Explains(r, o, heard, groups)
  {
  }

  /** What the response of a turn has the port execute: its batch, unless the tool limit stops it first or a
      call raises. */
  function Executed(response: Response, next: Next, t: nat, env: Env): seq<Entry> {
    if next.End? && next.end.ToolLimit? then []
    else if next.Raise? && next.error.ToolRaised? then UpToCall(response, next.error.call, t, env)
    else BatchEntries(response, t, env)
  }

  /** How a bound response may end the turn, or add its exchange; `s` is the session state at the time. */
  predicate Follows(r: Request, response: Response, groups: seq<Group>, next: Next, t: nat, env: Env, s: State) {
    match next
    case Raise(error) =>
      && response.output.Calls? && TotalCalls(groups) + |response.output.calls| <= r.maxToolCalls
      && (error.ToolRaised? || error.ExchangeNotClosed?)
      && (error.ToolRaised? ==>
           && Throws(response.output.calls, t, env, s, error.call)
           && NoneThrows(response.output.calls, t, env, s, error.call))
      && (error.ExchangeNotClosed? ==>
           && NoneThrows(response.output.calls, t, env, s, |response.output.calls|)
           && Misnamed(response.output.calls, ResultsOf(response.output.calls, t, env, s)))
    case Continue(group) =>
      && response.output.Calls? && TotalCalls(groups) + |response.output.calls| <= r.maxToolCalls
      && group.ToolExchange? && Closed(group) && group.turn == response.turn && group.calls == response.output.calls
      && (groups != [] ==> EvidenceOf(group) != EvidenceOf(groups[|groups| - 1]))
    case End(end) =>
      match end
      case Completed(content) => response.output == Final(content) && response.finish == FinishReason.Stop
      case Filtered => response.output.Final? && response.finish == ContentFilter
      case Incomplete => response.output.Final? && response.finish == Length
      case ToolLimit => response.output.Calls? && TotalCalls(groups) + |response.output.calls| > r.maxToolCalls
      case Repeated(evidence) =>
        && response.output.Calls? && groups != [] && evidence == EvidenceOf(groups[|groups| - 1])
        && CallsOf(evidence) == CallsOfBatch(response.output.calls)
        && TotalCalls(groups) + |response.output.calls| <= r.maxToolCalls
      case ModelLimit => false
      case Gated(_) => false
      case GatewayFailed(_) => false
      case NoResource => false
  }

  /** The tool branch, exactly: a batch over the limit is not executed; otherwise the turn fails with call `i`
      iff that is the first to raise, ends the run iff no call raised and the evidence is that of the exchange
      before, fails as not closed iff neither happened and a tool answered under another id or name, and
      adds the exchange iff none of this happened. */
  predicate UsesTools(r: Request, response: Response, groups: seq<Group>, next: Next, t: nat, env: Env, s: State)
    requires response.output.Calls?
  {
    var calls := response.output.calls;
    if TotalCalls(groups) + |calls| > r.maxToolCalls then next == End(ToolLimit)
    else
      var results := ResultsOf(calls, t, env, s);
      var done := NoneThrows(calls, t, env, s, |calls|);
      var repeated := groups != [] && Evidence(calls, results) == EvidenceOf(groups[|groups| - 1]);
      && (next.Raise? && next.error.ToolRaised? ==>
            Throws(calls, t, env, s, next.error.call) && NoneThrows(calls, t, env, s, next.error.call))
      && (!done <==> next.Raise? && next.error.ToolRaised?)
      && (done && repeated <==> next == End(Repeated(Evidence(calls, results))))
      && (done && !repeated && Misnamed(calls, results) <==> next == Raise(ExchangeNotClosed))
      && (done && !repeated && !Misnamed(calls, results) <==> next == Continue(ToolExchange(response.turn, calls, results)))
  }

  lemma UsedFollows(r: Request, response: Response, groups: seq<Group>, next: Next, t: nat, env: Env, s: State)
    requires response.output.Calls? && Usable(response) && UsesTools(r, response, groups, next, t, env, s)
    ensures Follows(r, response, groups, next, t, env, s)
  {
    hide Throws, NoneThrows, ResultsOf, TotalCalls;
    var calls := response.output.calls;
    if TotalCalls(groups) + |calls| <= r.maxToolCalls {
      var results := ResultsOf(calls, t, env, s);
      assert CallsOf(Evidence(calls, results)) == CallsOfBatch(calls);
    }
  }

  lemma RaiseFails(r: Request, heard: seq<Response>, groups: seq<Group>, response: Response, next: Next, env: Env, s: State)
    requires next.Raise? && Follows(r, response, groups, next, |groups|, env, s)
    requires |heard| == |groups| + 1 && heard[|groups|] == response
    ensures (next.error.ToolRaised? || next.error.ExchangeNotClosed?) && Fails(r, next.error, heard, groups, env, s)
  {
    hide Throws, NoneThrows, Misnamed, ResultsOf, TotalCalls;
  }

  lemma EndExplained(r: Request, heard: seq<Response>, groups: seq<Group>, response: Response, next: Next, env: Env, s: State)
    requires next.End? && Follows(r, response, groups, next, |groups|, env, s)
    requires |heard| == |groups| + 1 && heard[|groups|] == response
    ensures !next.end.Gated? && !next.end.ModelLimit? && (next.end.Repeated? ==> response.output.Calls?)
    ensures response.output.Calls? ==> next.end.ToolLimit? || next.end.Repeated?
    ensures TotalCalls(groups) <= r.maxToolCalls ==> Counted(groups, response, next.end) <= r.maxToolCalls
    ensures Explains(r, Outcome(next.end, |heard|, Counted(groups, response, next.end)), heard, groups)
  {
    hide EvidenceOf, TotalCalls, CallsOf, CallsOfBatch;
  }

  /** How the run goes on after a response, or what its end or its error tells of the run. */
  lemma FollowsExplained(r: Request, heard: seq<Response>, groups: seq<Group>, response: Response, next: Next, env: Env,
      s: State)
    requires Follows(r, response, groups, next, |groups|, env, s) && |heard| == |groups| + 1 && heard[|groups|] == response
    requires InSequence(r, groups) && Progresses(groups) && Heard(heard, groups)
    requires response.turn.scope == r.scope && response.turn.attempt == r.attempt && response.turn.sequence == |groups|
    ensures next.Raise? ==>
      (next.error.ToolRaised? || next.error.ExchangeNotClosed?) && Fails(r, next.error, heard, groups, env, s)
    ensures next.Continue? ==>
      && response.output.Calls? && InSequence(r, groups + [next.group]) && Progresses(groups + [next.group])
      && Heard(heard, groups + [next.group])
      && TotalCalls(groups + [next.group]) == TotalCalls(groups) + |response.output.calls| <= r.maxToolCalls
    ensures next.End? ==> !next.end.Gated? && !next.end.ModelLimit? && (next.end.Repeated? ==> response.output.Calls?)
    ensures next.End? && response.output.Calls? ==> next.end.ToolLimit? || next.end.Repeated?
    ensures next.End? && TotalCalls(groups) <= r.maxToolCalls ==> Counted(groups, response, next.end) <= r.maxToolCalls
    ensures next.End? ==> Explains(r, Outcome(next.end, |heard|, Counted(groups, response, next.end)), heard, groups)
  {
    hide Explains, Fails, InSequence, Progresses, Heard, Closed, EvidenceOf, TotalCalls, Counted;
    match next {
      case Continue(group) =>
        hide CallsOf, CallsOfBatch;
        OneMoreExchange(r, heard, groups, response, group);
      case Raise(_) =>
        hide *;
        RaiseFails(r, heard, groups, response, next, env, s);
      case End(_) =>
        hide *;
        EndExplained(r, heard, groups, response, next, env, s);
    }
  }

  /** The tool calls made by the time a turn ends the run: a repeated batch was executed too. */
  function Counted(groups: seq<Group>, response: Response, end: Ending): nat {
    TotalCalls(groups) + if end.Repeated? && response.output.Calls? then |response.output.calls| else 0
  }

  lemma NotStopping(s: State, ablation: bool)
    requires StopModelTurn(s, ablation).None?
    ensures !Stopping(s)
  {
  }

  lemma OthersTransitively(before: Turns, between: Turns, after: Turns, r: Request)
    requires LeavesOthersOf(before, between, r) && LeavesOthersOf(between, after, r)
    ensures LeavesOthersOf(before, after, r)
  {
  }

  lemma LastOf(o: Outcome, heard: seq<Response>, n: nat, env: Env)
    requires o.end.ModelLimit? || o.end.Gated? || o.end.GatewayFailed?
    ensures LastEntries(Ok(o), heard, n, env) == if o.end.GatewayFailed? then [Ask] else []
  {
  }

  /** A turn that fails before its response is heard. */
  lemma EarlyFails(r: Request, e: RunError, heard: seq<Response>, groups: seq<Group>, env: Env)
    requires |heard| == |groups|
    requires e.PromptBundleMissing? || e.BuilderRaised? || e.GatewayRaised?
    requires e.PromptBundleMissing? ==> r.maxModelCalls == 0 && heard == []
    requires e.BuilderRaised? ==>
      e.cause in {B.NamespaceViolation, B.MandatoryOverBudget, B.EstimateChangedAfterHashing}
    requires e.GatewayRaised? ==> !IsGatewayError(e.error)
    ensures forall s :: Fails(r, e, heard, groups, env, s)
    ensures LastEntries(Err(e), heard, |groups|, env) == if e.GatewayRaised? then [Ask] else []
  {
  }

  lemma {:induction false} TraceKept(heard: seq<Response>, response: Response, n: nat, env: Env)
    requires n <= |heard|
    ensures Trace(heard + [response], n, env) == Trace(heard, n, env)
  {
    if n > 0 {
      TraceKept(heard, response, n - 1, env);
    }
  }

  /** The log of one turn more, and of a turn that ends the run. */
  lemma TraceGrows(heard: seq<Response>, response: Response, next: Next, n: nat, env: Env)
    requires n < |heard| && heard[n] == response
    requires next.End? ==> !next.end.ModelLimit? && !next.end.Gated?
    requires next.End? && response.output.Calls? ==> next.end.ToolLimit? || next.end.Repeated?
    requires next.End? && next.end.Repeated? ==> response.output.Calls?
    requires next.Raise? ==> next.error.ToolRaised? || next.error.ExchangeNotClosed?
    ensures next.Continue? ==> Trace(heard, n + 1, env) == Trace(heard, n, env) + [Ask] + Executed(response, next, n, env)
    ensures next.End? ==> forall i: nat, j: nat ::
      LastEntries(Ok(Outcome(next.end, i, j)), heard, n, env) == [Ask] + Executed(response, next, n, env)
    ensures next.Raise? ==> LastEntries(Err(next.error), heard, n, env) == [Ask] + Executed(response, next, n, env)
  {
    hide CallEntries, UpToCall;
  }

  lemma HeardOne(heard: seq<Response>, groups: seq<Group>, response: Response)
    requires Heard(heard, groups) && |heard| == |groups|
    ensures Heard(heard + [response], groups)
  {
  }

  lemma OneMoreExchange(r: Request, heard: seq<Response>, groups: seq<Group>, response: Response, group: Group)
    requires InSequence(r, groups) && Progresses(groups) && Heard(heard, groups)
    requires |heard| == |groups| + 1 && heard[|groups|] == response && response.output.Calls?
    requires group.ToolExchange? && Closed(group) && group.turn == response.turn && group.calls == response.output.calls
    requires response.turn.scope == r.scope && response.turn.attempt == r.attempt && response.turn.sequence == |groups|
    requires groups != [] ==> EvidenceOf(group) != EvidenceOf(groups[|groups| - 1])
    ensures InSequence(r, groups + [group]) && Progresses(groups + [group]) && Heard(heard, groups + [group])
    ensures TotalCalls(groups + [group]) == TotalCalls(groups) + |response.output.calls|
  {
    hide Closed, EvidenceOf;
    assert (groups + [group])[..|groups|] == groups;
  }
}
