/** The context builder: history and namespace checks, three trimming stages, and the audit summary. */
module ContextBuilder {
  import opened Common
  import opened ModelContracts

  datatype Datum = Datum(kind: nat, namespace: nat, sourceRef: string, sha: string, content: string)

  datatype BuildError =
    | NamespaceViolation
    | GroupNotClosed
    | GroupOfAnotherAttempt
    | SequenceInvalid
    | MandatoryOverBudget
    | EstimateChangedAfterHashing

  /** The parts of a request that trimming works on; everything else of it is fixed. */
  datatype Request = Request(
    scope: string, attempt: nat, sequence: nat, current: Datum, facts: seq<Datum>, evidence: seq<Datum>, history: seq<Group>)

  datatype Profile = Profile(limit: nat, minimumRecent: nat, namespaces: set<nat>)

  /** How many tokens a candidate costs; `hashed` tells the final request from the provisional ones. */
  type Estimator = (seq<Group>, seq<Datum>, bool) -> nat

  datatype Summary = Summary(
    originalGroups: nat, retainedGroups: nat, removedGroups: seq<Group>, compressedResults: seq<string>,
    removedEvidence: seq<string>, before: nat, after: nat)

  datatype Bundle = Bundle(history: seq<Group>, evidence: seq<Datum>, trimming: Summary)

  // ---- validation ----

  predicate HistoryOk(history: seq<Group>, scope: string, attempt: nat, sequence: nat) {
    && (forall i | 0 <= i < |history| :: Closed(history[i]) && Bound(history[i], scope, attempt))
    && Increasing(Sequences(history)) && AllBelow(Sequences(history), sequence)
  }

  function Datums(r: Request): seq<Datum> {
    [r.current] + r.facts + r.evidence
  }

  method NamespacesAllowed(datums: seq<Datum>, allowed: set<nat>) returns (ok: bool)
    ensures ok <==> forall d <- datums :: d.namespace in allowed
  {
    var i := 0;
    while i < |datums|
      invariant i <= |datums|
      invariant forall j | 0 <= j < i :: datums[j].namespace in allowed
    {
      if datums[i].namespace !in allowed {
        return false;
      }
      i := i + 1;
    }
    return true;
  }

  /** The first group that is not closed or not bound, and otherwise the sequences. */
  method CheckGroups(r: Request) returns (checked: Result<seq<nat>, BuildError>)
    ensures checked.Ok? <==> forall i | 0 <= i < |r.history| :: Closed(r.history[i]) && Bound(r.history[i], r.scope, r.attempt)
    ensures checked.Ok? ==> checked.value == Sequences(r.history)
    ensures checked.Err? ==> checked.error == GroupNotClosed || checked.error == GroupOfAnotherAttempt
  {
    hide Closed;
    var sequences: seq<nat> := [];
    var i := 0;
    while i < |r.history|
      invariant i <= |r.history| && sequences == Sequences(r.history)[..i]
      invariant forall j | 0 <= j < i :: Closed(r.history[j]) && Bound(r.history[j], r.scope, r.attempt)
    {
      if !Closed(r.history[i]) {
        return Err(GroupNotClosed);
      }
      if !Bound(r.history[i], r.scope, r.attempt) {
        return Err(GroupOfAnotherAttempt);
      }
      sequences := sequences + [r.history[i].turn.sequence];
      i := i + 1;
    }
    return Ok(sequences);
  }

  /** `_validate_request`: namespaces first, then the groups, then the order of their sequences. */
  method ValidateRequest(r: Request, p: Profile) returns (error: Option<BuildError>)
    ensures error.None? <==>
      (forall d <- Datums(r) :: d.namespace in p.namespaces) && HistoryOk(r.history, r.scope, r.attempt, r.sequence)
    ensures error == Some(NamespaceViolation) <==> exists d <- Datums(r) :: d.namespace !in p.namespaces
    ensures HistoryOk(r.history, r.scope, r.attempt, r.sequence) ==> error.None? || error == Some(NamespaceViolation)
    ensures error == Some(SequenceInvalid) ==>
      (forall i | 0 <= i < |r.history| :: Closed(r.history[i]) && Bound(r.history[i], r.scope, r.attempt))
  {
    hide Closed, Bound, Datums, Sequences;
    var allowed := NamespacesAllowed(Datums(r), p.namespaces);
    if !allowed {
      return Some(NamespaceViolation);
    }
    var checked := CheckGroups(r);
    if checked.Err? {
      return Some(checked.error);
    }
    SortedSetCheck(checked.value);
    if !Increasing(checked.value) || !AllBelow(checked.value, r.sequence) {
      return Some(SequenceInvalid);
    }
    return None;
  }

  // ---- stage one: recent history ----

  /** How many of the oldest groups are dropped. */
  function Cut(e: Estimator, h: seq<Group>, ev: seq<Datum>, p: Profile): (k: nat)
    ensures k <= |h|
  {
    if e(h, ev, false) > p.limit && |h| > p.minimumRecent then 1 + Cut(e, h[1..], ev, p) else 0
  }

  // ---- stage two: raw results become summaries ----

  /** `_summarize_result`. */
  function Summarised(r: ToolResult): ToolResult {
    r.(content := Digested(r.sha, r.summary, r.errorClass), raw := false)
  }

  function Results(g: Group): seq<ToolResult> {
    if g.ToolExchange? then g.results else []
  }

  /** The positions of the raw results among the first `n`. */
  function RawIn(g: nat, results: seq<ToolResult>, n: nat): seq<(nat, nat)>
    requires n <= |results|
  {
    if n == 0 then []
    else RawIn(g, results, n - 1) + if results[n - 1].raw then [(g, n - 1)] else []
  }

  /** The positions of the raw results in the first `g` groups, in order. */
  function RawBefore(h: seq<Group>, g: nat): seq<(nat, nat)>
    requires g <= |h|
  {
    if g == 0 then []
    else RawBefore(h, g - 1) + RawIn(g - 1, Results(h[g - 1]), |Results(h[g - 1])|)
  }

  function Raws(h: seq<Group>): seq<(nat, nat)> {
    RawBefore(h, |h|)
  }

  predicate Position(h: seq<Group>, at: (nat, nat)) {
    at.0 < |h| && at.1 < |Results(h[at.0])|
  }

  function SummariseAt(h: seq<Group>, at: (nat, nat)): seq<Group> {
    if Position(h, at) then h[at.0 := h[at.0].(results := h[at.0].results[at.1 := Summarised(h[at.0].results[at.1])])] else h
  }

  /** The history with the results at these positions summarised. */
  function SummariseAll(h: seq<Group>, at: seq<(nat, nat)>): seq<Group> {
    if at == [] then h else SummariseAt(SummariseAll(h, at[..|at| - 1]), at[|at| - 1])
  }

  /** The history with its first `j` raw results summarised. */
  function FirstSummarised(h: seq<Group>, j: nat): seq<Group>
    requires j <= |Raws(h)|
  {
    SummariseAll(h, Raws(h)[..j])
  }

  /** How many raw results are summarised, from `j` on. */
  function Squeeze(e: Estimator, h: seq<Group>, ev: seq<Datum>, limit: nat, j: nat): (n: nat)
    requires j <= |Raws(h)|
    ensures j <= n <= |Raws(h)|
    decreases |Raws(h)| - j
  {
    if e(FirstSummarised(h, j), ev, false) <= limit || j == |Raws(h)| then j else Squeeze(e, h, ev, limit, j + 1)
  }

  function ShaAt(h: seq<Group>, at: (nat, nat)): string {
    if Position(h, at) then Results(h[at.0])[at.1].sha else ""
  }

  function Shas(h: seq<Group>, at: seq<(nat, nat)>): seq<string> {
    seq(|at|, i requires 0 <= i < |at| => ShaAt(h, at[i]))
  }

  // ---- stage three: evidence ----

  predicate SameIdentity(a: Datum, b: Datum) {
    a.kind == b.kind && a.namespace == b.namespace && a.sourceRef == b.sourceRef
  }

  predicate Superseded(ev: seq<Datum>, i: nat)
    requires i < |ev|
  {
    exists j | i < j < |ev| :: SameIdentity(ev[i], ev[j])
  }

  /** The last datum of each identity, in order, among the first `n`. */
  function Kept(ev: seq<Datum>, n: nat): seq<Datum>
    requires n <= |ev|
  {
    if n == 0 then [] else Kept(ev, n - 1) + if Superseded(ev, n - 1) then [] else [ev[n - 1]]
  }

  function Dropped(ev: seq<Datum>, n: nat): seq<Datum>
    requires n <= |ev|
  {
    if n == 0 then [] else Dropped(ev, n - 1) + if Superseded(ev, n - 1) then [ev[n - 1]] else []
  }

  function DatumShas(ds: seq<Datum>): seq<string> {
    seq(|ds|, i requires 0 <= i < |ds| => ds[i].sha)
  }

  // ---- the three stages together ----

  datatype Trim = Trim(dropped: nat, summarised: nat, deduplicated: bool, history: seq<Group>, evidence: seq<Datum>, after: nat)

  function Trimmed(e: Estimator, h: seq<Group>, ev: seq<Datum>, p: Profile): Trim {
    var k := Cut(e, h, ev, p);
    var recent := h[k..];
    var j := Squeeze(e, recent, ev, p.limit, 0);
    var squeezed := FirstSummarised(recent, j);
    if e(squeezed, ev, false) <= p.limit then Trim(k, j, false, squeezed, ev, e(squeezed, ev, false))
    else Trim(k, j, true, squeezed, Kept(ev, |ev|), e(squeezed, Kept(ev, |ev|), false))
  }

  function SummaryOf(h: seq<Group>, ev: seq<Datum>, before: nat, t: Trim): Summary
    requires t.dropped <= |h| && t.summarised <= |Raws(h[t.dropped..])|
  {
    Summary(|h|, |t.history|, h[..t.dropped],
      Shas(h[t.dropped..], Raws(h[t.dropped..])[..t.summarised]),
      if t.deduplicated then DatumShas(Dropped(ev, |ev|)) else [],
      before, t.after)
  }

  /** What `build` returns for a request that passed validation. */
  function Built(e: Estimator, h: seq<Group>, ev: seq<Datum>, p: Profile): Result<Bundle, BuildError> {
    var t := Trimmed(e, h, ev, p);
    if t.after > p.limit then Err(MandatoryOverBudget)
    else if e(t.history, t.evidence, true) != t.after then Err(EstimateChangedAfterHashing)
    else Ok(Bundle(t.history, t.evidence, SummaryOf(h, ev, e(h, ev, false), t)))
  }

  // ---- facts the loops need ----

  lemma {:induction false} RawInPrefix(g: nat, results: seq<ToolResult>, n: nat, m: nat)
    requires n <= m <= |results|
    ensures RawIn(g, results, n) <= RawIn(g, results, m)
  {
    if n < m {
      RawInPrefix(g, results, n, m - 1);
    }
  }

  lemma {:induction false} RawBeforePrefix(h: seq<Group>, g: nat, f: nat)
    requires g <= f <= |h|
    ensures RawBefore(h, g) <= RawBefore(h, f)
  {
    if g < f {
      RawBeforePrefix(h, g, f - 1);
    }
  }

  /** The positions met up to result `n` of group `g` begin the list of all of them. */
  lemma MetPrefix(h: seq<Group>, g: nat, n: nat)
    requires g < |h| && n <= |Results(h[g])|
    ensures RawBefore(h, g) + RawIn(g, Results(h[g]), n) <= Raws(h)
  {
    RawInPrefix(g, Results(h[g]), n, |Results(h[g])|);
    RawBeforePrefix(h, g + 1, |h|);
    hide RawIn;
    var all, met := RawBefore(h, g) + RawIn(g, Results(h[g]), |Results(h[g])|), RawIn(g, Results(h[g]), n);
    assert RawBefore(h, g + 1) == all;
    hide *;
    assert RawBefore(h, g) + met <= all;
  }

  /** A position not in the list keeps its result and its group keeps its kind, turn and calls. */
  predicate SameFrame(a: Group, b: Group) {
    match (a, b)
    case (Assistant(t), Assistant(u)) => t == u
    case (ToolExchange(t, c, r), ToolExchange(u, d, s)) => t == u && c == d && |r| == |s|
    case (Assistant(_), ToolExchange(_, _, _)) => false
    case (ToolExchange(_, _, _), Assistant(_)) => false
  }

  lemma {:induction false} SummariseAllFrame(h: seq<Group>, at: seq<(nat, nat)>)
    ensures |SummariseAll(h, at)| == |h|
    ensures forall g | 0 <= g < |h| :: SameFrame(h[g], SummariseAll(h, at)[g])
    decreases |at|
  {
    if at != [] {
      SummariseAllFrame(h, at[..|at| - 1]);
    }
  }

  /** Exactly the results at the listed positions are summarised. */
  lemma {:induction false} SummariseAllAt(h: seq<Group>, at: seq<(nat, nat)>, g: nat, n: nat)
    requires g < |h| && n < |Results(h[g])|
    ensures |SummariseAll(h, at)| == |h| && n < |Results(SummariseAll(h, at)[g])|
    ensures Results(SummariseAll(h, at)[g])[n] == if (g, n) in at then Summarised(Results(h[g])[n]) else Results(h[g])[n]
    decreases |at|
  {
    SummariseAllFrame(h, at);
    if at != [] {
      var rest, last := at[..|at| - 1], at[|at| - 1];
      SummariseAllAt(h, rest, g, n);
      SummariseAllFrame(h, rest);
      assert at == rest + [last];
    }
  }

  lemma {:induction false} SqueezeIs(e: Estimator, h: seq<Group>, ev: seq<Datum>, limit: nat, i: nat, j: nat)
    requires i <= j <= |Raws(h)|
    requires forall m: nat | m < j :: e(FirstSummarised(h, m), ev, false) > limit
    requires e(FirstSummarised(h, j), ev, false) <= limit || j == |Raws(h)|
    ensures Squeeze(e, h, ev, limit, i) == j
    decreases j - i
  {
    if i < j {
      SqueezeIs(e, h, ev, limit, i + 1, j);
    }
  }

  // ---- the loops ----

  method DropOldGroups(e: Estimator, h: seq<Group>, ev: seq<Datum>, p: Profile)
    returns (history: seq<Group>, removed: seq<Group>, after: nat)
    ensures removed == h[..Cut(e, h, ev, p)] && history == h[Cut(e, h, ev, p)..]
    ensures after == e(history, ev, false)
  {
    history, removed := h, [];
    after := e(history, ev, false);
    while after > p.limit && |history| > p.minimumRecent
      invariant h == removed + history
      invariant |removed| + Cut(e, history, ev, p) == Cut(e, h, ev, p)
      invariant after == e(history, ev, false)
      decreases |history|
    {
      removed := removed + [history[0]];
      history := history[1..];
      after := e(history, ev, false);
    }
  }

  method SummariseResults(e: Estimator, recent: seq<Group>, ev: seq<Datum>, limit: nat)
    returns (history: seq<Group>, compressed: seq<string>, after: nat)
    ensures var j := Squeeze(e, recent, ev, limit, 0);
      history == FirstSummarised(recent, j) && compressed == Shas(recent, Raws(recent)[..j])
    ensures after == e(history, ev, false)
  {
    hide Progress, SummariseAll, RawBefore, Squeeze, FirstSummarised, Shas;
    ghost var met;
    history, compressed, after, met := SummariseGroups(e, recent, ev, limit);
    AllMet(e, recent, ev, limit, met, history, compressed, after);
  }

  /** The outer loop: group after group, until the candidate fits. */
  method SummariseGroups(e: Estimator, recent: seq<Group>, ev: seq<Datum>, limit: nat)
    returns (history: seq<Group>, compressed: seq<string>, after: nat, ghost met: seq<(nat, nat)>)
    ensures Progress(e, recent, ev, limit, met, history, compressed, after)
    ensures after <= limit || met == Raws(recent)
  {
    hide Progress, SummariseAll, RawBefore, Squeeze, FirstSummarised, Shas;
    NothingMet(e, recent, ev, limit);
    history, compressed, met := recent, [], [];
    after := e(history, ev, false);
    var g := 0;
    while g < |recent|
      invariant g <= |recent|
      invariant Progress(e, recent, ev, limit, met, history, compressed, after)
      invariant after > limit ==> met == RawBefore(recent, g)
    {
      if after <= limit {
        break;
      }
      if recent[g].ToolExchange? {
        history, compressed, after, met := SummariseGroup(e, recent, ev, limit, g, history, compressed, after, met);
      } else {
        NothingRaw(recent, g);
      }
      g := g + 1;
    }
  }

  /** What both loops keep: the positions met are the first raw ones, and until the last nothing fitted. */
  ghost predicate Progress(e: Estimator, recent: seq<Group>, ev: seq<Datum>, limit: nat, met: seq<(nat, nat)>,
      history: seq<Group>, compressed: seq<string>, after: nat) {
    && met <= Raws(recent)
    && history == SummariseAll(recent, met)
    && compressed == Shas(recent, met)
    && after == e(history, ev, false)
    && forall m: nat | m < |met| :: e(FirstSummarised(recent, m), ev, false) > limit
  }

  lemma NothingMet(e: Estimator, recent: seq<Group>, ev: seq<Datum>, limit: nat)
    ensures Progress(e, recent, ev, limit, [], recent, [], e(recent, ev, false)) && RawBefore(recent, 0) == []
  {
    assert Shas(recent, []) == [];
  }

  lemma NothingRaw(h: seq<Group>, g: nat)
    requires g < |h| && !h[g].ToolExchange?
    ensures RawBefore(h, g + 1) == RawBefore(h, g)
  {
  }

  lemma AllMet(e: Estimator, recent: seq<Group>, ev: seq<Datum>, limit: nat, met: seq<(nat, nat)>,
      history: seq<Group>, compressed: seq<string>, after: nat)
    requires Progress(e, recent, ev, limit, met, history, compressed, after)
    requires after <= limit || met == Raws(recent)
    ensures var j := Squeeze(e, recent, ev, limit, 0);
      history == FirstSummarised(recent, j) && compressed == Shas(recent, Raws(recent)[..j])
    ensures after == e(history, ev, false)
  {
    hide SummariseAll, RawBefore;
    assert Raws(recent)[..|met|] == met;
    SqueezeIs(e, recent, ev, limit, 0, |met|);
  }

  lemma ProgressStep(e: Estimator, recent: seq<Group>, ev: seq<Datum>, limit: nat, met: seq<(nat, nat)>,
      history: seq<Group>, compressed: seq<string>, after: nat, at: (nat, nat))
    requires Progress(e, recent, ev, limit, met, history, compressed, after) && after > limit
    requires met + [at] <= Raws(recent)
    ensures Progress(e, recent, ev, limit, met + [at], SummariseAt(history, at), compressed + [ShaAt(recent, at)],
      e(SummariseAt(history, at), ev, false))
  {
    assert (met + [at])[..|met|] == met;
    assert Raws(recent)[..|met|] == met;
    hide RawBefore, SummariseAt;
    forall m: nat | m < |met + [at]|
      ensures e(FirstSummarised(recent, m), ev, false) > limit
    {
      if m == |met| {
        assert FirstSummarised(recent, m) == history;
      }
    }
    assert Shas(recent, met + [at]) == Shas(recent, met) + [ShaAt(recent, at)];
  }

  /** The inner loop: the results of one group, until the candidate fits. */
  method SummariseGroup(e: Estimator, recent: seq<Group>, ev: seq<Datum>, limit: nat, g: nat,
      history0: seq<Group>, compressed0: seq<string>, after0: nat, ghost met0: seq<(nat, nat)>)
    returns (history: seq<Group>, compressed: seq<string>, after: nat, ghost met: seq<(nat, nat)>)
    requires g < |recent| && recent[g].ToolExchange? && after0 > limit && met0 == RawBefore(recent, g)
    requires Progress(e, recent, ev, limit, met0, history0, compressed0, after0)
    ensures Progress(e, recent, ev, limit, met, history, compressed, after)
    ensures after > limit ==> met == RawBefore(recent, g + 1)
  {
    hide RawBefore, SummariseAll, Progress;
    history, compressed, after, met := history0, compressed0, after0, met0;
    ProgressHistory(e, recent, ev, limit, met, history, compressed, after);
    var results := recent[g].results;
    UntouchedGroup(recent, g, met);
    var n := 0;
    while n < |recent[g].results|
      invariant n <= |recent[g].results| == |results|
      invariant |history| == |recent| && history[g] == recent[g].(results := results)
      invariant forall m | n <= m < |results| :: results[m] == recent[g].results[m]
      invariant Progress(e, recent, ev, limit, met, history, compressed, after)
      invariant after > limit ==> met == RawBefore(recent, g) + RawIn(g, recent[g].results, n)
    {
      if after <= limit {
        break;
      }
      ghost var prior, soFar, over := history, compressed, after;
      assert RawIn(g, recent[g].results, n + 1)
          == RawIn(g, recent[g].results, n) + if recent[g].results[n].raw then [(g, n)] else [];
      hide RawIn;
      if recent[g].results[n].raw {
        MetPrefix(recent, g, n + 1);
        compressed := compressed + [recent[g].results[n].sha];
        results := results[n := Summarised(recent[g].results[n])];
        history := history[g := recent[g].(results := results)];
        after := e(history, ev, false);
        assert history == SummariseAt(prior, (g, n));
        assert met + [(g, n)] == RawBefore(recent, g) + RawIn(g, recent[g].results, n + 1);
        hide SummariseAt;
        ProgressStep(e, recent, ev, limit, met, prior, soFar, over, (g, n));
        met := met + [(g, n)];
      }
      n := n + 1;
    }
    RawBeforeNext(recent, g);
  }

  lemma RawBeforeNext(h: seq<Group>, g: nat)
    requires g < |h| && h[g].ToolExchange?
    ensures RawBefore(h, g + 1) == RawBefore(h, g) + RawIn(g, h[g].results, |h[g].results|)
  {
  }

  lemma ProgressHistory(e: Estimator, recent: seq<Group>, ev: seq<Datum>, limit: nat, met: seq<(nat, nat)>,
      history: seq<Group>, compressed: seq<string>, after: nat)
    requires Progress(e, recent, ev, limit, met, history, compressed, after)
    ensures |history| == |recent| && history == SummariseAll(recent, met)
  {
    SummariseAllFrame(recent, met);
  }

  lemma {:induction false} RawBeforeAbove(h: seq<Group>, f: nat, g: nat, n: nat)
    requires f <= g < |h|
    ensures (g, n) !in RawBefore(h, f)
  {
    if f > 0 {
      RawBeforeAbove(h, f - 1, g, n);
      RawInGroup(f - 1, Results(h[f - 1]), |Results(h[f - 1])|);
    }
  }

  lemma {:induction false} RawInGroup(g: nat, results: seq<ToolResult>, n: nat)
    requires n <= |results|
    ensures forall q <- RawIn(g, results, n) :: q.0 == g && q.1 < n && results[q.1].raw
  {
    if n > 0 {
      RawInGroup(g, results, n - 1);
    }
  }

  lemma UntouchedGroup(h: seq<Group>, g: nat, met: seq<(nat, nat)>)
    requires g < |h| && h[g].ToolExchange? && met == RawBefore(h, g)
    ensures |SummariseAll(h, met)| == |h| && SummariseAll(h, met)[g] == h[g]
  {
    SummariseAllFrame(h, met);
    hide SummariseAll, RawBefore;
    var after := SummariseAll(h, met)[g];
    assert SameFrame(h[g], after);
    forall n: nat | n < |h[g].results|
      ensures after.results[n] == h[g].results[n]
    {
      RawBeforeAbove(h, g, g, n);
      SummariseAllAt(h, met, g, n);
    }
    assert after.results == h[g].results;
  }

  method KeepLatestEvidence(ev: seq<Datum>) returns (retained: seq<Datum>, removed: seq<string>)
    ensures retained == Kept(ev, |ev|) && removed == DatumShas(Dropped(ev, |ev|))
  {
    var lastByIdentity: map<(nat, nat, string), nat> := map[];
    var i := 0;
    while i < |ev|
      invariant i <= |ev|
      invariant forall q <- lastByIdentity :: lastByIdentity[q] < i && Identity(ev[lastByIdentity[q]]) == q
      invariant forall m | 0 <= m < i :: Identity(ev[m]) in lastByIdentity && m <= lastByIdentity[Identity(ev[m])]
    {
      lastByIdentity := lastByIdentity[Identity(ev[i]) := i];
      i := i + 1;
    }
    retained, removed := [], [];
    i := 0;
    while i < |ev|
      invariant i <= |ev|
      invariant retained == Kept(ev, i) && removed == DatumShas(Dropped(ev, i))
    {
      assert Superseded(ev, i) <==> lastByIdentity[Identity(ev[i])] != i by {
        if lastByIdentity[Identity(ev[i])] != i {
          assert SameIdentity(ev[i], ev[lastByIdentity[Identity(ev[i])]]);
        }
      }
      if lastByIdentity[Identity(ev[i])] != i {
        removed := removed + [ev[i].sha];
      } else {
        retained := retained + [ev[i]];
      }
      i := i + 1;
    }
  }

  function Identity(d: Datum): (nat, nat, string) {
    (d.kind, d.namespace, d.sourceRef)
  }

  /** The trimming part of `build`, stage by stage. */
  method Build(e: Estimator, h: seq<Group>, ev: seq<Datum>, p: Profile) returns (r: Result<Bundle, BuildError>)
    ensures r == Built(e, h, ev, p)
  {
    var before := e(h, ev, false);
    var recent, removedGroups, afterCut := DropOldGroups(e, h, ev, p);
    var history, compressed, after := SummariseResults(e, recent, ev, p.limit);
    var evidence, removedEvidence := ev, [];
    if after > p.limit {
      evidence, removedEvidence := KeepLatestEvidence(ev);
      after := e(history, evidence, false);
    }
    if after > p.limit {
      return Err(MandatoryOverBudget);
    }
    if e(history, evidence, true) != after {
      return Err(EstimateChangedAfterHashing);
    }
    return Ok(Bundle(history, evidence,
      Summary(|h|, |history|, removedGroups, compressed, removedEvidence, before, after)));
  }
}
