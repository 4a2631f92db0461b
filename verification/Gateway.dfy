/** The model gateway: request checks, replay of private turns, and the bounded retry loop. */
module Gateway {
  import opened Common
  import opened ModelContracts
  import opened TurnStore

  // ---- retry policy ----

  datatype RetryPolicy = RetryPolicy(base: real, cap: real, maximum: nat)
  {
    predicate Valid() {
      base > 0.0 && cap > 0.0 && 1 <= maximum <= 3
    }
  }

  /** A Retry-After header as the decimal constructor reads it. */
  datatype Header = Absent | Seconds(value: real) | Unreadable | Infinite | NotANumber

  function Doubled(x: real, times: nat): real {
    if times == 0 then x else 2.0 * Doubled(x, times - 1)
  }

  function Min(a: real, b: real): real {
    if a <= b then a else b
  }

  /** How long to wait before the next attempt. */
  function Delay(p: RetryPolicy, number: nat, header: Header, jitter: real): real
    requires number >= 1
  {
    var asked := if header.Seconds? && header.value >= 0.0 then header.value
                 else Doubled(p.base, number - 1) + (if jitter > 0.0 then jitter else 0.0);
    Min(asked, p.cap)
  }

  lemma {:induction false} DoubledPositive(x: real, times: nat)
    requires x > 0.0
    ensures Doubled(x, times) >= x
  {
    if times > 0 {
      DoubledPositive(x, times - 1);
    }
  }

  /** The wait, exactly: a readable non-negative Retry-After is obeyed; otherwise it is the base, doubled after the
      second attempt, plus a positive jitter; never more than the cap. */
  lemma DelayExactly(p: RetryPolicy, number: nat, header: Header, jitter: real)
    requires p.Valid() && 1 <= number <= 2
    ensures var wait := Delay(p, number, header, jitter);
      var backoff := (if number == 1 then p.base else 2.0 * p.base) + (if jitter > 0.0 then jitter else 0.0);
      && (header.Seconds? && header.value >= 0.0 ==> wait <= p.cap && (wait == header.value || (wait == p.cap && p.cap < header.value)))
      && (!(header.Seconds? && header.value >= 0.0) ==> wait <= p.cap && (wait == backoff || (wait == p.cap && p.cap < backoff)))
  {
    assert Doubled(p.base, 0) == p.base && Doubled(p.base, 1) == 2.0 * p.base;
  }

  /** All the waits after the first `n` attempts. */
  function TotalWait(p: RetryPolicy, replies: seq<Reply>, jitters: seq<real>, n: nat): real
    requires n <= |replies| == |jitters|
  {
    if n == 0 then 0.0
    else TotalWait(p, replies, jitters, n - 1) + Delay(p, n, HeaderOf(replies[n - 1]), jitters[n - 1])
  }

  lemma DelayBounded(p: RetryPolicy, number: nat, header: Header, jitter: real)
    requires p.Valid() && number >= 1
    ensures 0.0 <= Delay(p, number, header, jitter) <= p.cap
  {
    DoubledPositive(p.base, number - 1);
  }

  // ---- replies ----

  datatype RawCall = RawCall(id: string, name: string, arguments: Option<string>)

  datatype Message = Message(content: Option<string>, reasoning: Option<string>, calls: seq<RawCall>, callsJson: string)

  /** A body whose JSON, finish reason, usage and cost could be read; the message may still be unusable. */
  datatype Payload = Payload(
    finish: FinishReason, usage: Usage, expectedModel: bool, message: Option<Message>, fingerprintOk: bool)

  datatype Reply =
    | Unreachable(connect: bool)
    | Rejected(status: nat, header: Header)
    | Body(payload: Option<Payload>)

  predicate RetryableStatus(status: nat) {
    status == 429 || status == 500 || status == 502 || status == 503 || status == 504
  }

  predicate Parses(reply: Reply) {
    reply.Body? && reply.payload.Some? && UsageOk(reply.payload.value.usage)
  }

  predicate RetryableReply(reply: Reply) {
    || reply.Unreachable?
    || (reply.Rejected? && RetryableStatus(reply.status))
    || (Parses(reply) && reply.payload.value.finish == InsufficientSystemResource)
  }

  function HeaderOf(reply: Reply): Header {
    if reply.Rejected? then reply.header else Absent
  }

  /** The reply leads to another attempt. A not-a-number header makes the comparison itself raise. */
  predicate Retries(p: RetryPolicy, number: nat, reply: Reply) {
    RetryableReply(reply) && number < p.maximum && !HeaderOf(reply).NotANumber?
  }

  /** The attempt summary admits the status; beyond 599 its own contract raises out of the completion. */
  predicate Recordable(reply: Reply) {
    reply.Rejected? ==> reply.status <= 599
  }

  // ---- reading the message ----

  predicate NameOk(name: string) {
    && 3 <= |name| <= 64 && 'a' <= name[0] <= 'z'
    && forall c <- name :: 'a' <= c <= 'z' || '0' <= c <= '9' || c == '_'
  }

  predicate CallOk(c: RawCall) {
    1 <= |c.id| <= 128 && NameOk(c.name) && c.arguments.Some? && 1 <= |c.arguments.value| <= 262144
  }

  predicate UniqueIds(calls: seq<RawCall>) {
    forall i, j | 0 <= i < j < |calls| :: calls[i].id != calls[j].id
  }

  predicate Fits(text: Option<string>, size: nat) {
    text.None? || |text.value| <= size
  }

  function ToolCallsOf(calls: seq<RawCall>): seq<ToolCall> {
    seq(|calls|, i requires 0 <= i < |calls| =>
      ToolCall(calls[i].id, calls[i].name, if calls[i].arguments.Some? then calls[i].arguments.value else ""))
  }

  /** `_parse_output`; nothing when it raises. */
  function ParseOutput(p: Payload): Option<Output> {
    if !p.expectedModel || p.message.None? then None
    else
      var m := p.message.value;
      if exists c <- m.calls :: !CallOk(c) then None
      else if m.calls != [] && p.finish != ToolCalls then None
      else if m.calls == [] && p.finish == ToolCalls then None
      else if !Fits(m.content, 262144) || !Fits(m.reasoning, 1048576) || |m.callsJson| > 262144 then None
      else if m.calls != [] then
        if |m.calls| > 8 || !UniqueIds(m.calls) then None else Some(Calls(ToolCallsOf(m.calls)))
      else if m.content.None? || m.content.value == "" then None
      else Some(Final(m.content.value))
  }

  function Text(t: Option<string>): string {
    if t.None? then "null" else "\"" + t.value + "\""
  }

  function PayloadText(m: Message): string {
    Text(m.content) + "," + Text(m.reasoning) + "," + m.callsJson
  }

  datatype Request = Request(
    scope: string, attempt: nat, sequence: nat, history: seq<Group>, revision: string, outputTokens: nat, tools: bool,
    effort: Option<string>)

  datatype Capability = Capability(revision: string, outputTokenLimit: nat, toolCalling: bool, efforts: set<string>)

  function TurnOf(r: Request, m: Message, u: Usage, sent: int): PrivateTurn {
    PrivateTurn(r.scope, r.attempt, r.sequence, PayloadText(m), Sha256(PayloadText(m)),
      seq(|m.calls|, i requires 0 <= i < |m.calls| => m.calls[i].id),
      if u.Reported? && u.completion >= 0 then u.completion else 0, sent, sent, sent + ABSOLUTE_TTL)
  }

  // ---- what one attempt records and raises ----

  const FAILED_USAGE := UsageUnavailable("attempt_failed")
  const FAILED_COST := CostUnavailable("attempt_failed")

  function SummaryOf(number: nat, reply: Reply, cost: (Usage, int) -> Cost, sent: int): AttemptSummary {
    match reply
    case Unreachable(connect) => AttemptSummary(number, TransportError, None, true, !connect, FAILED_USAGE, FAILED_COST)
    case Rejected(status, _) =>
      AttemptSummary(number, HttpError, Some(status), RetryableStatus(status), false, FAILED_USAGE, FAILED_COST)
    case Body(payload) =>
      if !Parses(reply) then AttemptSummary(number, ProtocolError, None, false, true, FAILED_USAGE, FAILED_COST)
      else
        var u := payload.value.usage;
        if payload.value.finish == InsufficientSystemResource then
          AttemptSummary(number, InsufficientResource, None, true, true, u, cost(u, sent))
        else if ParseOutput(payload.value).None? then AttemptSummary(number, ProtocolError, None, false, true, u, cost(u, sent))
        else AttemptSummary(number, Success, None, false, false, u, cost(u, sent))
  }

  datatype GatewayError =
    | RevisionMismatch | OutputLimitUnsupported | ToolCallingUnsupported | EffortUnsupported
    | HistoryBindingMismatch | HistorySequenceInvalid
    | TransportExhausted | AuthRejected | BalanceInsufficient | RateLimited | HttpRetryExhausted | HttpRejected
    | InsufficientResourceExhausted | ResponseInvalid
    | State(error: StateError)
    | HeaderNotANumber
    | ResponseRefused
    | SummaryRefused

  function HttpErrorOf(status: nat): GatewayError {
    if status == 401 then AuthRejected
    else if status == 402 then BalanceInsufficient
    else if status == 429 then RateLimited
    else if status >= 500 then HttpRetryExhausted
    else HttpRejected
  }

  /** The flag on the error raised, which orchestration reads. */
  predicate ErrorRetryable(e: GatewayError) {
    e == TransportExhausted || e == RateLimited || e == HttpRetryExhausted || e == InsufficientResourceExhausted
  }

  /** The error of a final attempt that is not a success. */
  function FailureOf(p: RetryPolicy, number: nat, reply: Reply): GatewayError {
    if !Recordable(reply) then SummaryRefused
    else if RetryableReply(reply) && number < p.maximum && HeaderOf(reply).NotANumber? then HeaderNotANumber
    else if reply.Unreachable? then TransportExhausted
    else if reply.Rejected? then HttpErrorOf(reply.status)
    else if Parses(reply) && reply.payload.value.finish == InsufficientSystemResource then InsufficientResourceExhausted
    else ResponseInvalid
  }

  /** The number of the attempt that ends the loop. */
  function LastAttempt(p: RetryPolicy, replies: seq<Reply>, number: nat): (last: nat)
    requires 1 <= number <= p.maximum == |replies|
    ensures number <= last <= p.maximum
    decreases p.maximum - number
  {
    if Retries(p, number, replies[number - 1]) then LastAttempt(p, replies, number + 1) else number
  }

  predicate RetriedAt(p: RetryPolicy, replies: seq<Reply>, n: nat) {
    1 <= n <= |replies| && Retries(p, n, replies[n - 1])
  }

  /** It is the first attempt whose reply is not retried. */
  lemma {:induction false} LastIsFirst(p: RetryPolicy, replies: seq<Reply>, number: nat)
    requires 1 <= number <= p.maximum == |replies|
    ensures var last := LastAttempt(p, replies, number);
      && !Retries(p, last, replies[last - 1])
      && forall n | number <= n < last :: RetriedAt(p, replies, n)
    decreases p.maximum - number
  {
    if Retries(p, number, replies[number - 1]) {
      LastIsFirst(p, replies, number + 1);
    }
  }

  predicate Delivers(reply: Reply) {
    && Parses(reply) && reply.payload.value.finish != InsufficientSystemResource
    && ParseOutput(reply.payload.value).Some?
  }

  /** Resolving the turns of a history in order from group `i` on, each renewed at its own instant. */
  function ResolveAll(turns: Turns, history: seq<Group>, now: nat -> int, i: nat): Result<Turns, StateError>
    requires i <= |history|
    decreases |history| - i
  {
    if i == |history| then Ok(turns)
    else
      var first := Resolve(turns, history[i].turn, now(i));
      if first.Err? then Err(first.error) else ResolveAll(first.value, history, now, i + 1)
  }

  predicate HistoryBound(r: Request) {
    && (forall g <- r.history :: Bound(g, r.scope, r.attempt))
    && Increasing(Sequences(r.history)) && AllBelow(Sequences(r.history), r.sequence)
  }

  /** Turns of other attempts are exactly as they were. */
  predicate LeavesOthers(before: Turns, after: Turns, scope: string, attempt: nat) {
    && (forall id <- before :: !OfAttempt(before[id], scope, attempt) ==> id in after && after[id] == before[id])
    && (forall id <- after :: !OfAttempt(after[id], scope, attempt) ==> id in before && before[id] == after[id])
  }

  /** The response carries the request's binding and its turn expects the calls it makes. */
  predicate Answers(response: Response, r: Request, id: nat) {
    && response.turn.id == id
    && response.turn.scope == r.scope && response.turn.attempt == r.attempt && response.turn.sequence == r.sequence
    && match response.output
       case Calls(calls) => 1 <= |calls| <= 8 && response.finish == ToolCalls && CallIds(calls) == response.turn.expected
       case Final(content) =>
         response.finish != ToolCalls && response.finish != InsufficientSystemResource && response.turn.expected == []
  }

  lemma OutputMatchesTurn(r: Request, p: Payload, sent: int)
    requires ParseOutput(p).Some?
    ensures p.message.Some?
    ensures match ParseOutput(p).value
      case Calls(calls) =>
        1 <= |calls| <= 8 && p.finish == ToolCalls && CallIds(calls) == TurnOf(r, p.message.value, p.usage, sent).expected
      case Final(content) => p.finish != ToolCalls && TurnOf(r, p.message.value, p.usage, sent).expected == []
  {
  }

  lemma DeliveryAnswers(p: RetryPolicy, r: Request, turns: Turns, attempts: seq<AttemptSummary>, last: Reply, sent: int, id: nat)
    requires (Delivers(last) ==> attempts != []) && id !in turns
    ensures var (result, turns') := Delivery(p, r, turns, attempts, last, sent, id);
      && (result.Ok? ==> Answers(result.value, r, id))
      && LeavesOthers(turns, turns', r.scope, r.attempt) && turns'.Keys <= turns.Keys + {id}
      && result != Err(HistoryBindingMismatch) && result != Err(HistorySequenceInvalid)
  {
    if Delivers(last) {
      OutputMatchesTurn(r, last.payload.value, sent);
    }
    hide ParseOutput, UsageOk, RetryableReply, PayloadText;
  }

  /** What follows the final attempt: an error, or the turn saved and the response built and validated. */
  function Delivery(p: RetryPolicy, r: Request, turns: Turns, attempts: seq<AttemptSummary>, last: Reply, sent: int, id: nat):
      (Result<Response, GatewayError>, Turns)
    requires Delivers(last) ==> attempts != []
  {
    if !Delivers(last) then (Err(FailureOf(p, |attempts|, last)), turns)
    else
      var body := last.payload.value;
      var turn := TurnOf(r, body.message.value, body.usage, sent);
      var saved := Save(turns, turn, id);
      if saved.Err? then (Err(State(saved.error)), turns)
      else if !body.fingerprintOk then (Err(ResponseRefused), saved.value)
      else (Ok(Response(ParseOutput(body).value, RefOf(id, turn), body.finish, body.usage,
                attempts[|attempts| - 1].cost, attempts)), saved.value)
  }

  class DeepSeekModelGateway {
    const store: InMemoryProviderTurnStore
    const policy: RetryPolicy
    const capability: Capability
    /** The requests completed so far. */
    ghost var asked: seq<Request>

    constructor (store: InMemoryProviderTurnStore, policy: RetryPolicy, capability: Capability)
      ensures this.store == store && this.policy == policy && this.capability == capability && asked == []
    {
      this.store, this.policy, this.capability, asked := store, policy, capability, [];
    }

    predicate Capable(r: Request) {
      && r.revision == capability.revision && r.outputTokens <= capability.outputTokenLimit
      && (r.tools ==> capability.toolCalling) && (r.effort.Some? ==> r.effort.value in capability.efforts)
    }

    method ValidateRequest(r: Request) returns (error: Option<GatewayError>)
      ensures error.None? <==> Capable(r) && HistoryBound(r)
      ensures error == Some(HistoryBindingMismatch) || error == Some(HistorySequenceInvalid) ==> !HistoryBound(r)
      ensures error == Some(RevisionMismatch) <==> r.revision != capability.revision
      ensures error == Some(OutputLimitUnsupported) <==>
        r.revision == capability.revision && r.outputTokens > capability.outputTokenLimit
      ensures error == Some(ToolCallingUnsupported) <==>
        r.revision == capability.revision && r.outputTokens <= capability.outputTokenLimit && r.tools && !capability.toolCalling
      ensures error == Some(EffortUnsupported) <==>
        r.revision == capability.revision && r.outputTokens <= capability.outputTokenLimit
        && (r.tools ==> capability.toolCalling) && r.effort.Some? && r.effort.value !in capability.efforts
      ensures error == Some(HistoryBindingMismatch) <==>
        Capable(r) && exists g <- r.history :: g.turn.scope != r.scope || g.turn.attempt != r.attempt
    {
      if r.revision != capability.revision {
        return Some(RevisionMismatch);
      }
      if r.outputTokens > capability.outputTokenLimit {
        return Some(OutputLimitUnsupported);
      }
      if r.tools && !capability.toolCalling {
        return Some(ToolCallingUnsupported);
      }
      if r.effort.Some? && r.effort.value !in capability.efforts {
        return Some(EffortUnsupported);
      }
      var sequences := BoundSequences(r);
      if sequences.None? {
        return Some(HistoryBindingMismatch);
      }
      SortedSetCheck(sequences.value);
      if !Increasing(sequences.value) || !AllBelow(sequences.value, r.sequence) {
        return Some(HistorySequenceInvalid);
      }
      return None;
    }

    method BoundSequences(r: Request) returns (sequences: Option<seq<nat>>)
      ensures sequences.Some? <==> forall g <- r.history :: Bound(g, r.scope, r.attempt)
      ensures sequences.Some? ==> sequences.value == Sequences(r.history)
    {
      var found: seq<nat> := [];
      var i := 0;
      while i < |r.history|
        invariant i <= |r.history| && found == Sequences(r.history)[..i]
        invariant forall j | 0 <= j < i :: Bound(r.history[j], r.scope, r.attempt)
      {
        if !Bound(r.history[i], r.scope, r.attempt) {
          return None;
        }
        found := found + [r.history[i].turn.sequence];
        i := i + 1;
      }
      return Some(found);
    }

    /** The replay part of `_encode_request`: every private turn of the history is resolved and renewed. */
    method EncodeHistory(r: Request, now: nat -> int) returns (encoded: Result<(), StateError>)
      requires HistoryBound(r)
      modifies store
      ensures match ResolveAll(old(store.turns), r.history, now, 0)
        case Err(e) => encoded == Err(e)
        case Ok(after) => encoded.Ok? && store.turns == after
      ensures store.turns.Keys == old(store.turns).Keys
      ensures LeavesOthers(old(store.turns), store.turns, r.scope, r.attempt)
    {
      ghost var before := store.turns;
      var i := 0;
      while i < |r.history|
        invariant i <= |r.history|
        invariant ResolveAll(before, r.history, now, 0) == ResolveAll(store.turns, r.history, now, i)
        invariant store.turns.Keys == before.Keys
        invariant LeavesOthers(before, store.turns, r.scope, r.attempt)
      {
        assert Bound(r.history[i], r.scope, r.attempt);
        var resolved := store.ResolveTurn(r.history[i].turn, now(i));
        if resolved.Err? {
          return Err(resolved.error);
        }
        i := i + 1;
      }
      return Ok(());
    }

    /** The loop of `_parse_output` over the raw calls. */
    method ParseCalls(raw: seq<RawCall>) returns (calls: Option<seq<ToolCall>>)
      ensures calls == if exists c <- raw :: !CallOk(c) then None else Some(ToolCallsOf(raw))
    {
      var parsed: seq<ToolCall> := [];
      var i := 0;
      while i < |raw|
        invariant i <= |raw| && parsed == ToolCallsOf(raw)[..i]
        invariant forall j | 0 <= j < i :: CallOk(raw[j])
      {
        if !CallOk(raw[i]) {
          return None;
        }
        parsed := parsed + [ToolCall(raw[i].id, raw[i].name, raw[i].arguments.value)];
        i := i + 1;
      }
      assert parsed == ToolCallsOf(raw);
      return Some(parsed);
    }

    method Parse(p: Payload) returns (output: Option<Output>)
      ensures output == ParseOutput(p)
    {
      if !p.expectedModel || p.message.None? {
        return None;
      }
      var m := p.message.value;
      var calls := ParseCalls(m.calls);
      if calls.None? {
        return None;
      }
      if (calls.value != []) != (p.finish == ToolCalls) {
        return None;
      }
      if !Fits(m.content, 262144) || !Fits(m.reasoning, 1048576) || |m.callsJson| > 262144 {
        return None;
      }
      if calls.value != [] {
        if |calls.value| > 8 || !UniqueIds(m.calls) {
          return None;
        }
        return Some(Calls(calls.value));
      }
      if m.content.None? || m.content.value == "" {
        return None;
      }
      return Some(Final(m.content.value));
    }

    /** The bounded loop: one request after another until a reply is final. A summary is recorded for each
        request sent, unless the last one's cannot be. */
    method Attempts(replies: seq<Reply>, jitters: seq<real>, cost: (Usage, int) -> Cost, sentAt: seq<int>)
      returns (attempts: seq<AttemptSummary>, slept: real, sent: nat)
      requires policy.Valid() && |replies| == |jitters| == |sentAt| == policy.maximum
      ensures sent == LastAttempt(policy, replies, 1)
      ensures |attempts| == if Recordable(replies[sent - 1]) then sent else sent - 1
      ensures forall i | 0 <= i < |attempts| :: attempts[i] == SummaryOf(i + 1, replies[i], cost, sentAt[i])
      ensures slept == TotalWait(policy, replies, jitters, sent - 1)
      ensures 0.0 <= slept <= (sent - 1) as real * policy.cap
    {
      attempts, slept, sent := [], 0.0, 0;
      var number := 1;
      while true
        invariant 1 <= number <= policy.maximum && |attempts| == sent == number - 1
        invariant forall i | 0 <= i < |attempts| :: attempts[i] == SummaryOf(i + 1, replies[i], cost, sentAt[i])
        invariant LastAttempt(policy, replies, 1) == LastAttempt(policy, replies, number)
        invariant slept == TotalWait(policy, replies, jitters, number - 1)
        invariant 0.0 <= slept <= (number - 1) as real * policy.cap
        decreases policy.maximum - number
      {
        var reply := replies[number - 1];
        sent := number;
        if !Recordable(reply) {
          break;
        }
        attempts := attempts + [SummaryOf(number, reply, cost, sentAt[number - 1])];
        if !Retries(policy, number, reply) {
          break;
        }
        var delay := Delay(policy, number, HeaderOf(reply), jitters[number - 1]);
        DelayBounded(policy, number, HeaderOf(reply), jitters[number - 1]);
        slept := slept + delay;
        number := number + 1;
      }
    }

    /** One completion. `now` are the instants of the replay, `id` the fresh id of the turn to save. */
    method Complete(r: Request, now: nat -> int, replies: seq<Reply>, jitters: seq<real>, cost: (Usage, int) -> Cost,
        sentAt: seq<int>, id: nat)
      returns (result: Result<Response, GatewayError>, attempts: seq<AttemptSummary>, slept: real, sent: nat)
      requires policy.Valid() && |replies| == |jitters| == |sentAt| == policy.maximum
      requires id !in store.turns
      modifies store, this`asked
      ensures asked == old(asked) + [r]
      ensures sent == 0 ==> attempts == [] && result.Err? && store.turns.Keys == old(store.turns).Keys
      ensures LeavesOthers(old(store.turns), store.turns, r.scope, r.attempt)
      ensures store.turns.Keys <= old(store.turns).Keys + {id}
      ensures result.Ok? ==> Answers(result.value, r, id)
      ensures HistoryBound(r) ==> result != Err(HistoryBindingMismatch) && result != Err(HistorySequenceInvalid)
      ensures sent > 0 ==>
        && sent == LastAttempt(policy, replies, 1)
        && |attempts| == (if Recordable(replies[sent - 1]) then sent else sent - 1)
        && (forall i | 0 <= i < |attempts| :: attempts[i] == SummaryOf(i + 1, replies[i], cost, sentAt[i]))
      ensures sent <= policy.maximum
      ensures slept == if sent == 0 then 0.0 else TotalWait(policy, replies, jitters, sent - 1)
      ensures 0.0 <= slept <= (if sent == 0 then 0.0 else (sent - 1) as real * policy.cap)
      ensures sent > 0 ==>
        && ResolveAll(old(store.turns), r.history, now, 0).Ok?
        && (result, store.turns)
             == Delivery(policy, r, ResolveAll(old(store.turns), r.history, now, 0).value, attempts,
                  replies[sent - 1], sentAt[sent - 1], id)
    {
      asked := asked + [r];
      attempts, slept, sent := [], 0.0, 0;
      var invalid := ValidateRequest(r);
      if invalid.Some? {
        return Err(invalid.value), attempts, slept, sent;
      }
      var encoded := EncodeHistory(r, now);
      if encoded.Err? {
        return Err(State(encoded.error)), attempts, slept, sent;
      }
      ghost var resolved := store.turns;
      attempts, slept, sent := Attempts(replies, jitters, cost, sentAt);
      var last := replies[sent - 1];
      DeliveryAnswers(policy, r, resolved, attempts, last, sentAt[sent - 1], id);
      if !Delivers(last) {
        return Err(FailureOf(policy, |attempts|, last)), attempts, slept, sent;
      }
      var p := last.payload.value;
      var output := Parse(p);
      var turn := TurnOf(r, p.message.value, p.usage, sentAt[sent - 1]);
      var saved := store.SaveTurn(turn, id);
      if saved.Err? {
        return Err(State(saved.error)), attempts, slept, sent;
      }
      if !p.fingerprintOk {
        return Err(ResponseRefused), attempts, slept, sent;
      }
      return Ok(Response(output.value, saved.value, p.finish, p.usage, attempts[|attempts| - 1].cost, attempts)),
        attempts, slept, sent;
    }
  }
}
