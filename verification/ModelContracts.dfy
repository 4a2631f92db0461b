/** Turn references, tool exchanges and conversation groups, and the history check made by both the
    context builder and the model gateway. */
module ModelContracts {
  import opened Common

  /** An ideal SHA-256: digests are equal only for equal contents. */
  datatype Digest = Sha256(of: string)

  datatype TurnRef = TurnRef(
    id: nat, scope: string, attempt: nat, sequence: nat, payload: Digest, expected: seq<string>, weight: nat, expires: int)

  datatype ToolCall = ToolCall(id: string, name: string, arguments: string)

  datatype Content = Json(text: string) | Digested(sha: string, summary: string, errorClass: Option<string>)

  datatype ToolResult = ToolResult(
    callId: string, name: string, content: Content, summary: string, sha: string, errorClass: Option<string>, raw: bool)

  datatype Group =
    | Assistant(turn: TurnRef)
    | ToolExchange(turn: TurnRef, calls: seq<ToolCall>, results: seq<ToolResult>)

  /** The closed-exchange rule: results answer the calls in order under the same ids and names, and the
      turn reference expects exactly those calls. */
  predicate Closed(g: Group) {
    match g
    case Assistant(turn) => turn.expected == []
    case ToolExchange(turn, calls, results) =>
      && 1 <= |calls| <= 8 && |results| == |calls|
      && CallIds(calls) == turn.expected
      && forall i | 0 <= i < |calls| :: results[i].callId == calls[i].id && results[i].name == calls[i].name
  }

  function CallIds(calls: seq<ToolCall>): seq<string> {
    seq(|calls|, i requires 0 <= i < |calls| => calls[i].id)
  }

  // ---- responses ----

  datatype FinishReason = Stop | ToolCalls | Length | ContentFilter | InsufficientSystemResource

  datatype Output = Final(content: string) | Calls(calls: seq<ToolCall>)

  datatype Usage =
    | Reported(prompt: int, hit: int, miss: int, completion: int, reasoning: int, total: int)
    | UsageUnavailable(reason: string)

  datatype Cost = Estimated(amount: real) | CostUnavailable(reason: string)

  datatype AttemptOutcome = Success | HttpError | TransportError | ProtocolError | InsufficientResource

  datatype AttemptSummary = AttemptSummary(
    number: nat, outcome: AttemptOutcome, status: Option<nat>, retryable: bool, chargeAmbiguous: bool, usage: Usage, cost: Cost)

  datatype Response = Response(
    output: Output, turn: TurnRef, finish: FinishReason, usage: Usage, cost: Cost, attempts: seq<AttemptSummary>)

  predicate UsageOk(u: Usage) {
    u.Reported? ==>
      && u.prompt >= 0 && u.hit >= 0 && u.miss >= 0 && u.completion >= 0 && u.reasoning >= 0
      && u.prompt == u.hit + u.miss && u.total == u.prompt + u.completion && u.reasoning <= u.completion
  }

  /** A reported usage balances: every count is there, hits and misses make up the prompt, prompt and completion the
      total, and reasoning is part of the completion. */
  lemma UsageBalances(u: Usage)
    requires u.Reported?
    ensures UsageOk(u) <==>
      && 0 <= u.hit && 0 <= u.miss && 0 <= u.reasoning <= u.completion
      && u.hit + u.miss == u.prompt && u.hit + u.miss + u.completion == u.total
  {
  }

  predicate Numbered(attempts: seq<AttemptSummary>) {
    forall i | 0 <= i < |attempts| :: attempts[i].number == i + 1
  }

  /** The consistency rules of a model response. */
  predicate ResponseOk(r: Response) {
    && 1 <= |r.attempts| <= 3 && Numbered(r.attempts)
    && r.attempts[|r.attempts| - 1].outcome == Success
    && r.usage == r.attempts[|r.attempts| - 1].usage && r.cost == r.attempts[|r.attempts| - 1].cost
    && match r.output
       case Calls(calls) => 1 <= |calls| <= 8 && r.finish == ToolCalls && CallIds(calls) == r.turn.expected
       case Final(content) => r.finish != ToolCalls && r.turn.expected == []
  }

  // ---- histories ----

  predicate Bound(g: Group, scope: string, attempt: nat) {
    g.turn.scope == scope && g.turn.attempt == attempt
  }

  function Sequences(history: seq<Group>): seq<nat> {
    seq(|history|, i requires 0 <= i < |history| => history[i].turn.sequence)
  }

  predicate Increasing(s: seq<nat>) {
    forall i, j | 0 <= i < j < |s| :: s[i] < s[j]
  }

  predicate AllBelow(s: seq<nat>, bound: nat) {
    forall i | 0 <= i < |s| :: s[i] < bound
  }

  // ---- sequences == sorted(set(sequences)) ----

  function Elements(s: seq<nat>): set<nat> {
    set n | n in s
  }

  lemma {:induction false} LeastOf(s: set<nat>) returns (m: nat)
    requires s != {}
    ensures m in s && forall n <- s :: m <= n
  {
    var first :| first in s;
    m := first;
    if s != {first} {
      var rest := LeastOf(s - {first});
      m := if rest < first then rest else first;
      forall n <- s
        ensures m <= n
      {
        assert n == first || n in s - {first};
      }
    }
  }

  ghost predicate IsLeast(s: set<nat>, m: nat) {
    m in s && forall n <- s :: m <= n
  }

  /** Python's sorted(set(...)): the elements in increasing order. */
  ghost function SortedSet(s: set<nat>): seq<nat> {
    if s == {} then []
    else
      LeastExists(s);
      var m :| IsLeast(s, m);
      [m] + SortedSet(s - {m})
  }

  lemma LeastExists(s: set<nat>)
    requires s != {}
    ensures exists m :: IsLeast(s, m)
  {
    var m := LeastOf(s);
    assert IsLeast(s, m);
  }

  lemma SortedSetStarts(s: set<nat>) returns (m: nat)
    requires s != {}
    ensures IsLeast(s, m) && SortedSet(s) == [m] + SortedSet(s - {m})
  {
    LeastExists(s);
    m := SortedSet(s)[0];
  }

  lemma {:induction false} SortedSetIncreases(s: set<nat>)
    ensures Increasing(SortedSet(s)) && forall n :: n in SortedSet(s) <==> n in s
  {
    if s != {} {
      var m := SortedSetStarts(s);
      SortedSetIncreases(s - {m});
      var rest := SortedSet(s - {m});
      assert SortedSet(s) == [m] + rest;
      hide SortedSet;
      forall i, j | 0 <= i < j < |[m] + rest|
        ensures ([m] + rest)[i] < ([m] + rest)[j]
      {
        assert rest[j - 1] in s - {m};
      }
    }
  }

  /** The check of both sides, sequences == sorted(set(sequences)), says exactly that they increase. */
  lemma {:induction false} SortedSetCheck(s: seq<nat>)
    ensures s == SortedSet(Elements(s)) <==> Increasing(s)
  {
    SortedSetIncreases(Elements(s));
    if Increasing(s) {
      SameIncreasing(s, SortedSet(Elements(s)));
    }
  }

  lemma HasElement(s: seq<nat>)
    ensures s == [] || exists n :: n in s
  {
    if s != [] {
      assert s[0] in s;
    }
  }

  lemma {:induction false} SameIncreasing(a: seq<nat>, b: seq<nat>)
    requires Increasing(a) && Increasing(b) && forall n :: n in a <==> n in b
    ensures a == b
  {
    if a == [] {
      HasElement(b);
    } else {
      assert a[0] in b && b != [] && b[0] in a;
      assert a[0] == b[0];
      forall n
        ensures n in a[1..] <==> n in b[1..]
      {
        assert n in a[1..] <==> n in a && n != a[0];
        assert n in b[1..] <==> n in b && n != b[0];
      }
      SameIncreasing(a[1..], b[1..]);
    }
  }
}
