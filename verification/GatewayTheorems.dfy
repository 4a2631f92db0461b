/** What one completion guarantees, and where its error flag and its clean-up stop short. */
module GatewayTheorems {
  import opened Common
  import opened ModelContracts
  import opened TurnStore
  import opened Gateway

  /** The attempts recorded by the loop for these replies, of which `sent` were asked for. */
  ghost predicate Recorded(p: RetryPolicy, replies: seq<Reply>, cost: (Usage, int) -> Cost, sentAt: seq<int>,
      attempts: seq<AttemptSummary>, sent: nat) {
    && p.Valid() && |replies| == |sentAt| == p.maximum
    && sent == LastAttempt(p, replies, 1)
    && |attempts| == (if Recordable(replies[sent - 1]) then sent else sent - 1)
    && forall i | 0 <= i < |attempts| :: attempts[i] == SummaryOf(i + 1, replies[i], cost, sentAt[i])
  }

  /** Attempts are numbered 1..n with n at most the maximum, all but that of the last request are retryable
      and cannot be a success; the last request is the first whose reply is not retried. */
  lemma AttemptsAreBounded(p: RetryPolicy, replies: seq<Reply>, cost: (Usage, int) -> Cost, sentAt: seq<int>,
      attempts: seq<AttemptSummary>, sent: nat)
    requires Recorded(p, replies, cost, sentAt, attempts, sent)
    ensures 1 <= sent <= p.maximum <= 3 && |attempts| <= sent && Numbered(attempts)
    ensures forall i | 0 <= i < |attempts| :: attempts[i].number == i + 1
    ensures forall i | 0 <= i < sent - 1 :: attempts[i].retryable && attempts[i].outcome != Success
    ensures !Retries(p, sent, replies[sent - 1])
  {
    LastIsFirst(p, replies, 1);
    hide ParseOutput, UsageOk;
    forall i | 0 <= i < |attempts|
      ensures attempts[i].number == i + 1
      ensures i < sent - 1 ==> attempts[i].retryable && attempts[i].outcome != Success
    {
      assert i < sent - 1 ==> RetriedAt(p, replies, i + 1);
    }
  }

  /** A retryable attempt of the last request was the last one allowed, unless its header made the comparison
      raise. */
  lemma ExhaustedOrFinal(p: RetryPolicy, replies: seq<Reply>, cost: (Usage, int) -> Cost, sentAt: seq<int>,
      attempts: seq<AttemptSummary>, sent: nat)
    requires Recorded(p, replies, cost, sentAt, attempts, sent)
    ensures sent > 0
    ensures |attempts| == sent && attempts[sent - 1].retryable ==>
      sent == p.maximum || HeaderOf(replies[sent - 1]).NotANumber?
  {
    LastIsFirst(p, replies, 1);
    hide ParseOutput, UsageOk;
  }

  /** The response built always meets the response rules, whatever the provider sent. */
  lemma ResponseMeetsRules(p: RetryPolicy, replies: seq<Reply>, cost: (Usage, int) -> Cost, sentAt: seq<int>,
      attempts: seq<AttemptSummary>, sent: nat, r: Request, turns: Turns, id: nat)
    requires Recorded(p, replies, cost, sentAt, attempts, sent)
    requires Delivery(p, r, turns, attempts, replies[sent - 1], sentAt[sent - 1], id).0.Ok?
    ensures ResponseOk(Delivery(p, r, turns, attempts, replies[sent - 1], sentAt[sent - 1], id).0.value)
  {
    AttemptsAreBounded(p, replies, cost, sentAt, attempts, sent);
    var last := replies[sent - 1];
    var response := Delivery(p, r, turns, attempts, last, sentAt[sent - 1], id).0.value;
    hide UsageOk, Numbered, Save, CallOk;
    OutputMatchesTurn(r, last.payload.value, sentAt[sent - 1]);
  }

  /** The response rules in full: one to three attempts, numbered from one, the last a success that the usage and the
      cost are of; and a batch of one to eight calls that the turn expects by id, under the finish reason for tool
      calls, or a text under another with no call expected. */
  lemma RulesExactly(r: Response)
    ensures ResponseOk(r) <==>
      && 1 <= |r.attempts| <= 3 && (forall i | 0 <= i < |r.attempts| :: r.attempts[i].number == i + 1)
      && r.attempts[|r.attempts| - 1].outcome == Success
      && r.usage == r.attempts[|r.attempts| - 1].usage && r.cost == r.attempts[|r.attempts| - 1].cost
      && (r.output.Calls? <==> r.finish == ToolCalls)
      && (r.output.Calls? ==>
           && 1 <= |r.output.calls| <= 8 && |r.turn.expected| == |r.output.calls|
           && forall i | 0 <= i < |r.output.calls| :: r.turn.expected[i] == r.output.calls[i].id)
      && (r.output.Final? ==> r.turn.expected == [])
  {
    if r.output.Calls? {
      var ids := CallIds(r.output.calls);
      assert |ids| == |r.output.calls| && forall i | 0 <= i < |ids| :: ids[i] == r.output.calls[i].id;
      if |r.turn.expected| == |ids| && forall i | 0 <= i < |ids| :: r.turn.expected[i] == r.output.calls[i].id {
        assert ids == r.turn.expected;
      }
    }
  }

  /** A response comes with exactly one private turn saved, the one its reference resolves to. A failure
      leaves none, unless it is the refusal of the response itself. */
  lemma OneTurnOrNone(p: RetryPolicy, r: Request, turns: Turns, attempts: seq<AttemptSummary>, last: Reply, sent: int,
      id: nat, now: int)
    requires (Delivers(last) ==> attempts != []) && id !in turns
    ensures var (result, turns') := Delivery(p, r, turns, attempts, last, sent, id);
      && (result.Ok? ==>
            && turns'.Keys == turns.Keys + {id} && turns' - {id} == turns
            && result.value.turn == RefOf(id, turns'[id])
            && OfAttempt(turns'[id], r.scope, r.attempt) && turns'[id].sequence == r.sequence
            && (Resolve(turns', result.value.turn, now).Ok? <==> now < sent + ABSOLUTE_TTL && now - sent <= IDLE_TTL))
      && (result.Err? ==> (turns' == turns <==> result != Err(ResponseRefused)))
  {
    hide ParseOutput, UsageOk, Parses, RetryableReply, PayloadText;
  }

  /** The refusal, exactly: the reply can be delivered, no turn of that sequence is stored, and only the
      system fingerprint breaks the response's own contract. The private turn stays behind. */
  lemma RefusedExactly(p: RetryPolicy, r: Request, turns: Turns, attempts: seq<AttemptSummary>, last: Reply, sent: int, id: nat)
    requires (Delivers(last) ==> attempts != []) && id !in turns
    ensures Delivery(p, r, turns, attempts, last, sent, id).0 == Err(ResponseRefused) <==>
      && Delivers(last) && !last.payload.value.fingerprintOk
      && forall other <- turns :: !(OfAttempt(turns[other], r.scope, r.attempt) && turns[other].sequence == r.sequence)
  {
    hide UsageOk, RetryableReply, PayloadText, CallOk, UniqueIds;
    if Delivers(last) {
      var turn := TurnOf(r, last.payload.value.message.value, last.payload.value.usage, sent);
      forall other <- turns
        ensures SameKey(turns[other], turn) <==>
          OfAttempt(turns[other], r.scope, r.attempt) && turns[other].sequence == r.sequence
      {
      }
    }
  }

  /** The retryable flag of the error raised agrees with that of the last attempt, except for server
      errors outside the retried list, which are flagged retryable though they are not retried, and for a
      header that is not a number. */
  lemma ErrorFlagExact(p: RetryPolicy, number: nat, reply: Reply, cost: (Usage, int) -> Cost, sent: int)
    requires !Delivers(reply) && Recordable(reply)
    ensures (ErrorRetryable(FailureOf(p, number, reply)) <==> SummaryOf(number, reply, cost, sent).retryable) <==>
      !(reply.Rejected? && reply.status >= 500 && !RetryableStatus(reply.status))
      && !(RetryableReply(reply) && number < p.maximum && HeaderOf(reply).NotANumber?)
  {
    hide ParseOutput, UsageOk;
  }

  /** Replaying turns renews them and touches nothing else. */
  lemma {:induction false} ReplayOnlyRenews(turns: Turns, history: seq<Group>, now: nat -> int, i: nat)
    requires i <= |history| && ResolveAll(turns, history, now, i).Ok?
    ensures var turns' := ResolveAll(turns, history, now, i).value;
      && turns'.Keys == turns.Keys
      && (forall id <- turns :: RefOf(id, turns'[id]) == RefOf(id, turns[id]) && turns'[id].payload == turns[id].payload)
      && (forall id <- turns :: (forall g <- history :: g.turn.id != id) ==> turns'[id] == turns[id])
      && (forall j | i <= j < |history| ::
            history[j].turn.id in turns && RefOf(history[j].turn.id, turns[history[j].turn.id]) == history[j].turn)
    decreases |history| - i
  {
    if i < |history| {
      var first := Resolve(turns, history[i].turn, now(i)).value;
      ReplayOnlyRenews(first, history, now, i + 1);
      hide ResolveAll;
      forall id <- turns
        ensures RefOf(id, first[id]) == RefOf(id, turns[id]) && first[id].payload == turns[id].payload
      {
      }
    }
  }

  // ---- replies, told in full ----

  /** A reply leads to another attempt exactly if attempts are left and the provider could not be reached, answered
      with one of five statuses under a header that can be compared, or lacked resources. */
  lemma RetriedExactly(p: RetryPolicy, number: nat, reply: Reply)
    ensures Retries(p, number, reply) <==>
      number < p.maximum
      && match reply
         case Unreachable(_) => true
         case Rejected(status, header) => status in {429, 500, 502, 503, 504} && !header.NotANumber?
         case Body(payload) =>
           payload.Some? && UsageOk(payload.value.usage) && payload.value.finish == InsufficientSystemResource
  {
    hide UsageOk;
  }

  /** The error a rejection ends in, by its status, and whether it is flagged for another try. */
  lemma RejectionNamed(p: RetryPolicy, number: nat, status: nat, header: Header)
    requires status <= 599 && (number >= p.maximum || !header.NotANumber? || status !in {429, 500, 502, 503, 504})
    ensures var e := FailureOf(p, number, Rejected(status, header));
      && (e == AuthRejected <==> status == 401) && (e == BalanceInsufficient <==> status == 402)
      && (e == RateLimited <==> status == 429) && (e == HttpRetryExhausted <==> status >= 500)
      && (e == HttpRejected <==> status < 500 && status !in {401, 402, 429})
      && (ErrorRetryable(e) <==> status == 429 || status >= 500)
  {
  }

  /** The error any other reply ends in. */
  lemma FailureNamed(p: RetryPolicy, number: nat, reply: Reply)
    requires !Delivers(reply)
    ensures reply.Unreachable? ==>
      FailureOf(p, number, reply) == TransportExhausted && ErrorRetryable(FailureOf(p, number, reply))
    ensures reply.Body? && Parses(reply) && reply.payload.value.finish == InsufficientSystemResource ==>
      FailureOf(p, number, reply) == InsufficientResourceExhausted && ErrorRetryable(FailureOf(p, number, reply))
    ensures reply.Body? && !(Parses(reply) && reply.payload.value.finish == InsufficientSystemResource) ==>
      FailureOf(p, number, reply) == ResponseInvalid && !ErrorRetryable(FailureOf(p, number, reply))
    ensures reply.Rejected? && reply.status > 599 ==> FailureOf(p, number, reply) == SummaryRefused
    ensures (reply.Rejected? && reply.status in {429, 500, 502, 503, 504} && reply.header.NotANumber? && number < p.maximum) ==>
      FailureOf(p, number, reply) == HeaderNotANumber
  {
    hide ParseOutput, UsageOk;
  }

  /** What is recorded of an attempt: a charge is in doubt exactly if the provider was reached and answered neither
      with a status nor with a usable response; usage and cost are those of the body exactly if it was readable. */
  lemma SummaryExactly(number: nat, reply: Reply, cost: (Usage, int) -> Cost, sent: int)
    ensures var s := SummaryOf(number, reply, cost, sent);
      && s.number == number
      && (s.status == if reply.Rejected? then Some(reply.status) else None)
      && (s.outcome == Success <==> Delivers(reply))
      && (s.outcome == HttpError <==> reply.Rejected?) && (s.outcome == TransportError <==> reply.Unreachable?)
      && (s.outcome == InsufficientResource <==>
           Parses(reply) && reply.payload.value.finish == InsufficientSystemResource)
      && (s.chargeAmbiguous <==> (reply.Unreachable? && !reply.connect) || (reply.Body? && !Delivers(reply)))
      && (s.retryable <==>
           reply.Unreachable? || s.outcome == InsufficientResource
           || (reply.Rejected? && reply.status in {429, 500, 502, 503, 504}))
      && (if Parses(reply) then s.usage == reply.payload.value.usage && s.cost == cost(reply.payload.value.usage, sent)
          else s.usage == UsageUnavailable("attempt_failed") && s.cost == CostUnavailable("attempt_failed"))
  {
    hide ParseOutput, UsageOk;
  }

  // ---- the message, told in full ----

  predicate LowerCaseName(name: string) {
    && 3 <= |name| <= 64 && 'a' <= name[0] <= 'z'
    && forall i | 0 <= i < |name| :: 'a' <= name[i] <= 'z' || '0' <= name[i] <= '9' || name[i] == '_'
  }

  /** A call of the provider is usable: identified, named in lower case, with arguments that could be read. */
  predicate UsableCall(c: RawCall) {
    1 <= |c.id| <= 128 && LowerCaseName(c.name) && c.arguments.Some? && 1 <= |c.arguments.value| <= 262144
  }

  predicate UsableMessage(m: Message, finish: FinishReason) {
    && (m.content.Some? ==> |m.content.value| <= 262144) && (m.reasoning.Some? ==> |m.reasoning.value| <= 1048576)
    && |m.callsJson| <= 262144
    && if m.calls == [] then finish != ToolCalls && m.content.Some? && m.content.value != ""
       else
         && finish == ToolCalls && |m.calls| <= 8
         && (forall i | 0 <= i < |m.calls| :: UsableCall(m.calls[i]))
         && forall i, j | 0 <= i < j < |m.calls| :: m.calls[i].id != m.calls[j].id
  }

  lemma CallsUsable(c: RawCall)
    ensures CallOk(c) <==> UsableCall(c)
  {
    assert forall i | 0 <= i < |c.name| :: c.name[i] in c.name;
  }

  /** A body is read exactly if it is of the expected model and its message is usable; the output is then its text,
      or its calls one by one under their ids, names and arguments. */
  lemma ReadsExactly(p: Payload)
    ensures ParseOutput(p).Some? <==> p.expectedModel && p.message.Some? && UsableMessage(p.message.value, p.finish)
    ensures ParseOutput(p).Some? ==>
      var m := p.message.value;
      match ParseOutput(p).value
      case Final(content) => m.calls == [] && m.content == Some(content)
      case Calls(calls) =>
        |calls| == |m.calls| > 0 && forall i | 0 <= i < |calls| ::
          calls[i].id == m.calls[i].id && calls[i].name == m.calls[i].name && m.calls[i].arguments == Some(calls[i].arguments)
  {
    if p.message.Some? {
      var m := p.message.value;
      forall c: RawCall
        ensures CallOk(c) <==> UsableCall(c)
      {
        CallsUsable(c);
      }
      hide CallOk, UsableCall;
      assert (exists c <- m.calls :: !CallOk(c)) <==> !(forall i | 0 <= i < |m.calls| :: UsableCall(m.calls[i]));
      if ParseOutput(p).Some? && m.calls != [] {
        forall i | 0 <= i < |m.calls|
          ensures m.calls[i].arguments.Some?
        {
          assert UsableCall(m.calls[i]);
          UsableHasArguments(m.calls[i]);
        }
      }
    }
  }

  lemma UsableHasArguments(c: RawCall)
    requires UsableCall(c)
    ensures c.arguments.Some?
  {
  }

  /** The private turn of a response: bound to the request, expecting exactly the calls of the message, weighing what
      the completion cost in tokens, and kept for a week from its sending. */
  lemma TurnExactly(r: Request, m: Message, u: Usage, sent: int)
    ensures var t := TurnOf(r, m, u, sent);
      && t.scope == r.scope && t.attempt == r.attempt && t.sequence == r.sequence
      && |t.expected| == |m.calls| && (forall i | 0 <= i < |m.calls| :: t.expected[i] == m.calls[i].id)
      && (u.Reported? && u.completion >= 0 ==> t.weight == u.completion) && (u.UsageUnavailable? ==> t.weight == 0)
      && t.created == t.lastUsed == sent && t.expires == sent + 7 * 24 * 60 * 60 && t.payloadSha == Sha256(t.payload)
  {
  }
}
