/** What the product schema guarantees over all runs of its functions. */
module ProductSqlTheorems {
  import opened Common
  import opened ProductSql
  import opened ProductSqlInvariants
  import opened ProductSqlSafety

  // ---- reset ----

  /** In every reachable state each reference stays within one scenario, so after each single delete of a
      reset no surviving row references a deleted one. */
  lemma ResetIsReferentiallySafe(states: seq<Db>, events: seq<Event>, k: nat, s: string, n: nat)
    requires IsRun(states, events) && k < |states| && n <= |DELETE_ORDER|
    ensures RefInv(states[k]) && RefInv(Deleted(states[k], s, n))
  {
    hide RefInv, IsRun, ControlInv, BusinessInv, Audited;
    RunInv(states, events, k);
    EachDeleteIsSafe(states[k], s, n);
  }

  datatype Row =
    | AuditRow(id: nat, audit: Audit) | RiskRow(id: nat, risk: Risk) | ConclusionRow(name: string, conclusion: Conclusion)
    | RuleRow(id: nat, rule: Rule) | ExecutionRow(id: nat, execution: Execution) | NonceRow(id: nat, nonce: Nonce)
    | DecisionRow(key: PKey, decision: Decision) | ProposalRow(key: PKey, proposal: Proposal)
    | BacktestRow(id: nat, backtest: Backtest) | TaskRow(id: nat, task: Task) | TraceRow(id: nat, of: string)

  predicate HasRow(db: Db, row: Row) {
    var c, b, l := db.control, db.business, db.trail;
    match row
    case AuditRow(id, x) => id in l.audits && l.audits[id] == x
    case RiskRow(id, x) => id in b.risks && b.risks[id] == x
    case ConclusionRow(name, x) => name in b.conclusions && b.conclusions[name] == x
    case RuleRow(id, x) => id in b.rules && b.rules[id] == x
    case ExecutionRow(id, x) => id in c.executions && c.executions[id] == x
    case NonceRow(id, x) => id in c.nonces && c.nonces[id] == x
    case DecisionRow(key, x) => key in c.decisions && c.decisions[key] == x
    case ProposalRow(key, x) => key in c.proposals && c.proposals[key] == x
    case BacktestRow(id, x) => id in b.backtests && b.backtests[id] == x
    case TaskRow(id, x) => id in b.tasks && b.tasks[id] == x
    case TraceRow(id, of) => id in l.traces && l.traces[id] == of
  }

  function ScenarioOf(row: Row): string {
    match row
    case AuditRow(_, x) => x.scenario
    case RiskRow(_, x) => x.scenario
    case ConclusionRow(_, x) => x.scenario
    case RuleRow(_, x) => x.scenario
    case ExecutionRow(_, x) => x.scenario
    case NonceRow(_, x) => x.scenario
    case DecisionRow(_, x) => x.scenario
    case ProposalRow(_, x) => x.scenario
    case BacktestRow(_, x) => x.scenario
    case TaskRow(_, x) => x.scenario
    case TraceRow(_, of) => of
  }

  /** The rows left after a reset are exactly the rows of the other scenarios, unchanged. */
  lemma ResetRemovesTheScenario(db: Db, s: string, row: Row)
    ensures HasRow(Reset(db, s), row) <==> HasRow(db, row) && ScenarioOf(row) != s
  {
    ResetIsExact(db, s);
    hide Reset;
  }

  // ---- one live version ----

  /** In every reachable state every version below another of its proposal is superseded, without decision or
      execution; so a proposal has at most one live version, and it is the highest. */
  lemma OneLiveVersion(states: seq<Db>, events: seq<Event>, i: nat, j: PKey, k: PKey)
    requires IsRun(states, events) && i < |states|
    requires j in states[i].control.proposals && k in states[i].control.proposals && j.id == k.id
    ensures var c := states[i].control;
      && (j.version < k.version ==> c.proposals[j].status == Superseded && j !in c.decisions && !Executed(c, j))
      && (Live(c.proposals[j]) ==> k.version <= j.version)
      && (Live(c.proposals[j]) && Live(c.proposals[k]) ==> j == k)
  {
    DecisionsAreExact(states, events, i, j);
    hide IsRun, RefInv, BusinessInv, Audited, Executed;
    RunInv(states, events, i);
    assert LiveLast(states[i].control);
    assert Below(j, k) || Below(k, j) || j == k;
  }

  /** Decisions stand exactly on approved and rejected versions, by another actor; superseded and pending ones
      have neither decision nor execution. */
  lemma DecisionsAreExact(states: seq<Db>, events: seq<Event>, i: nat, k: PKey)
    requires IsRun(states, events) && i < |states| && k in states[i].control.proposals
    ensures var c := states[i].control;
      && (k in c.decisions <==> c.proposals[k].status == Approved || c.proposals[k].status == Rejected)
      && (k in c.decisions ==> c.decisions[k].approver != c.proposals[k].requester)
      && (Executed(c, k) ==> c.proposals[k].status == Approved)
  {
    hide IsRun, BusinessInv, Audited;
    RunInv(states, events, i);
    var c := states[i].control;
    assert Decided(c) && ExecutedOnce(c) && NoncesBound(c) && NoncesRef(c);
    hide RefInv, ControlInv, LiveLast, OnePerRequest;
    if Executed(c, k) {
      var e :| e in c.executions && c.executions[e].key == k;
      var n :| UsedFor(c, n, c.executions[e].key);
      assert c.nonces[n].key == k;
    }
  }

  // ---- exactly once ----

  /** In every reachable state each execution has its version to itself, one claimed nonce and one audit event,
      and there are no claimed nonces or audit events besides. */
  lemma ExecutionsNoncesAudits(states: seq<Db>, events: seq<Event>, i: nat)
    requires IsRun(states, events) && i < |states|
    ensures ExecutedOnce(states[i].control) && Audited(states[i].control, states[i].trail)
    ensures NoncesBound(states[i].control)
    ensures |states[i].trail.audits| == |states[i].control.executions| == |UsedNonces(states[i].control)|
  {
    hide IsRun, RefInv, BusinessInv;
    RunInv(states, events, i);
    var c, l := states[i].control, states[i].trail;
    assert ExecutedOnce(c) && NoncesBound(c) && Audited(c, l);
    hide ControlInv;
    hide ExecutedOnce, NoncesBound, Audited, UsedNonces;
    CountsAgree(c, l);
  }

  lemma CountsAgree(c: Control, l: Trail)
    requires ExecutedOnce(c) && NoncesBound(c) && Audited(c, l)
    ensures |l.audits| == |c.executions| == |UsedNonces(c)|
  {
    assert |l.audits| == |l.audits.Keys| && |c.executions| == |c.executions.Keys|;
    ImagesAgree(c);
    var byExecution := NamedExecutions(c);
    var byNonce := NamedNonces(c);
    hide ExecutedOnce, NoncesBound, Audited, UsedNonces, Injective;
    SameSize(byExecution, byNonce, byExecution.Keys, byNonce.Keys);
  }

  lemma NamedExecutions(c: Control) returns (f: map<nat, PKey>)
    requires ExecutedOnce(c)
    ensures f.Keys == c.executions.Keys && Injective(f) && forall e <- f :: f[e] == c.executions[e].key
  {
    f := map e | e in c.executions :: c.executions[e].key;
  }

  lemma NamedNonces(c: Control) returns (f: map<nat, PKey>)
    requires NoncesBound(c)
    ensures f.Keys == UsedNonces(c) && Injective(f) && forall n <- f :: f[n] == c.nonces[n].key
  {
    f := map n | n in UsedNonces(c) :: c.nonces[n].key;
  }

  function UsedNonces(c: Control): set<nat> {
    set n | n in c.nonces && c.nonces[n].used
  }

  lemma ImagesAgree(c: Control)
    requires ExecutedOnce(c)
    ensures forall e <- c.executions :: exists n <- UsedNonces(c) :: c.nonces[n].key == c.executions[e].key
    ensures forall n <- UsedNonces(c) :: exists e <- c.executions :: c.executions[e].key == c.nonces[n].key
  {
    forall e <- c.executions
      ensures exists n <- UsedNonces(c) :: c.nonces[n].key == c.executions[e].key
    {
      var n :| UsedFor(c, n, c.executions[e].key);
      assert n in UsedNonces(c);
    }
    forall n <- UsedNonces(c)
      ensures exists e <- c.executions :: c.executions[e].key == c.nonces[n].key
    {
      assert Executed(c, c.nonces[n].key);
    }
  }

  predicate Injective(f: map<nat, PKey>) {
    forall x, y | x in f && y in f :: f[x] == f[y] ==> x == y
  }

  /** Two sets named by the same keys, each key once, are of one size. */
  lemma {:induction false} SameSize(f: map<nat, PKey>, g: map<nat, PKey>, a: set<nat>, b: set<nat>)
    requires Injective(f) && Injective(g) && a <= f.Keys && b <= g.Keys
    requires forall x <- a :: exists y <- b :: g[y] == f[x]
    requires forall y <- b :: exists x <- a :: f[x] == g[y]
    ensures |a| == |b|
    decreases a
  {
    if a != {} {
      var x :| x in a;
      var y :| y in b && g[y] == f[x];
      forall v <- a - {x}
        ensures exists w <- b - {y} :: g[w] == f[v]
      {
        var w :| w in b && g[w] == f[v];
        assert w in b - {y};
      }
      forall w <- b - {y}
        ensures exists v <- a - {x} :: f[v] == g[w]
      {
        var v :| v in a && f[v] == g[w];
        assert v in a - {x};
      }
      SameSize(f, g, a - {x}, b - {y});
    }
  }

  // ---- lost responses and races ----

  predicate ResetsNothingOf(e: Event, s: string) {
    !(e.ResetScenario? && e.scenario == s)
  }

  lemma StepKeepsExecution(db: Db, e: Event, x: nat)
    requires x in db.control.executions && ResetsNothingOf(e, db.control.executions[x].scenario)
    ensures x in Next(db, e).control.executions && Next(db, e).control.executions[x] == db.control.executions[x]
  {
    if e.ResetScenario? {
      ResetIsExact(db, e.scenario);
    } else {
      hide Mutate, Authorised, Claimable, Inserted, Reset;
    }
  }

  lemma {:induction false} ExecutionStands(states: seq<Db>, events: seq<Event>, i: nat, j: nat, x: nat)
    requires IsRun(states, events) && i <= j < |states| && x in states[i].control.executions
    requires forall k | i <= k < j :: ResetsNothingOf(events[k], states[i].control.executions[x].scenario)
    ensures x in states[j].control.executions && states[j].control.executions[x] == states[i].control.executions[x]
    decreases j
  {
    if i < j {
      hide Next;
      ExecutionStands(states, events, i, j - 1, x);
      assert ResetsNothingOf(events[j - 1], states[i].control.executions[x].scenario);
      StepKeepsExecution(states[j - 1], events[j - 1], x);
    }
  }

  function ExecutionScenario(c: Control, x: nat): string {
    if x in c.executions then c.executions[x].scenario else ""
  }

  /** A committed execution answers every later identical call with the same receipt and changes nothing, as
      long as its scenario is not reset; so a caller whose commit was not acknowledged gets its receipt by
      asking again. */
  lemma LostCommitRecovered(states: seq<Db>, events: seq<Event>, i: nat, j: nat, call: Call, now: int, later: int)
    requires IsRun(states, events) && i < j < |states| && events[i] == Command(call, now)
    requires Execute(states[i], call, now).Ok?
    requires forall k | i < k < j :: ResetsNothingOf(events[k], ExecutionScenario(states[i + 1].control, call.execution))
    ensures Execute(states[j], call, later) == Ok((states[j], Execute(states[i], call, now).value.1))
  {
    assert states[i + 1] == Next(states[i], events[i]);
    ExecuteRecords(states[i], call, now);
    RunInv(states, events, j);
    assert ExecutedOnce(states[j].control);
    hide Execute, Inv, Next, ExecutedOnce;
    ExecutionStands(states, events, i + 1, j, call.execution);
    ReplayAnswers(states[j], call, later);
  }

  lemma ExecuteRecords(db: Db, call: Call, now: int)
    requires Execute(db, call, now).Ok?
    ensures var (after, receipt) := Execute(db, call, now).value;
      && call.execution in after.control.executions
      && var x := after.control.executions[call.execution];
         && x.key == call.key && x.actor == call.actor && x.idempotency == call.idempotency
         && receipt == Receipt(call.execution, x.before, x.after, x.committedAt)
         && (!Executed(db.control, call.key) ==> x.scenario == call.scenario)
         && (Executed(db.control, call.key) ==> after == db)
  {
    hide Mutate, Authorised, Claimable;
  }

  lemma ReplayAnswers(db: Db, call: Call, now: int)
    requires ExecutedOnce(db.control) && call.execution in db.control.executions
    requires var x := db.control.executions[call.execution];
      x.key == call.key && x.actor == call.actor && x.idempotency == call.idempotency
    ensures var x := db.control.executions[call.execution];
      Execute(db, call, now) == Ok((db, Receipt(call.execution, x.before, x.after, x.committedAt)))
  {
    hide Perform;
  }

  lemma ExecutedIs(c: Control, key: PKey)
    requires Executed(c, key)
    ensures exists e :: IsExecutionOf(c, e, key)
  {
    var e :| e in c.executions && c.executions[e].key == key;
    assert IsExecutionOf(c, e, key);
  }

  /** `read_execution`: the receipt of the version's execution. */
  ghost function ReadExecution(c: Control, key: PKey): Option<Receipt> {
    if !Executed(c, key) then None
    else
      ExecutedIs(c, key);
      var e :| IsExecutionOf(c, e, key);
      Some(Receipt(e, c.executions[e].before, c.executions[e].after, c.executions[e].committedAt))
  }

  /** A caller that found no execution but lost the race for the version writes nothing: its insert violates
      the unique key, and reading again gives it the winner's receipt. */
  lemma RaceLoserGetsReceipt(db: Db, call: Call, now: int, winner: nat)
    requires Inv(db) && IsExecutionOf(db.control, winner, call.key) && Authorised(db.control, call, now)
    ensures Perform(db, call, now) == Err(UniqueViolation)
    ensures var x := db.control.executions[winner];
      ReadExecution(db.control, call.key) == Some(Receipt(winner, x.before, x.after, x.committedAt))
  {
    assert ExecutedOnce(db.control);
    hide Inv, Mutate, Claimable, Authorised;
    assert Executed(db.control, call.key);
  }

  // ---- versions without gaps ----

  /** Below every version of a proposal stands the one before it. */
  predicate Dense(c: Control) {
    forall k <- c.proposals :: k.version > 1 ==> Before(k) in c.proposals
  }

  /** All versions of a proposal belong to one scenario. */
  predicate OneScenario(c: Control) {
    forall k <- c.proposals :: k.version > 1 && Before(k) in c.proposals ==>
      c.proposals[Before(k)].scenario == c.proposals[k].scenario
  }

  /** A reset keeps the versions dense exactly when it removes no version below one it leaves. */
  lemma ResetDenseExactly(db: Db, s: string)
    requires Dense(db.control)
    ensures Dense(Reset(db, s).control) <==>
      forall k <- db.control.proposals :: k.version > 1 && db.control.proposals[k].scenario != s ==>
        db.control.proposals[Before(k)].scenario != s
  {
    ResetIsExact(db, s);
    var c, d := db.control, Reset(db, s).control;
    assert d.proposals == KeptProposals(c.proposals, s);
    hide Reset, Without;
    if Dense(d) {
      forall k <- c.proposals | k.version > 1 && c.proposals[k].scenario != s
        ensures c.proposals[Before(k)].scenario != s
      {
        assert k in d.proposals;
      }
    }
  }

  /** Every reset of a state with dense versions keeps them so exactly when no proposal spans two scenarios. */
  lemma EveryResetDenseExactly(db: Db)
    requires Dense(db.control)
    ensures (forall s :: Dense(Reset(db, s).control)) <==> OneScenario(db.control)
  {
    var c := db.control;
    hide Reset;
    if OneScenario(c) {
      forall s
        ensures Dense(Reset(db, s).control)
      {
        ResetDenseExactly(db, s);
      }
    } else {
      var k :| k in c.proposals && k.version > 1 && Before(k) in c.proposals
        && c.proposals[Before(k)].scenario != c.proposals[k].scenario;
      ResetDenseExactly(db, c.proposals[Before(k)].scenario);
    }
  }

  /** A revision that is committed in another scenario than the version it revises makes the reset of that
      version's scenario leave a gap; one committed in the same scenario adds no gap to any reset. */
  lemma CrossingLeavesAGap(db: Db, a: ProposalArgs, now: int, s: string)
    requires Dense(db.control) && a.key.version > 1
    requires CreateProposal(db.control, a, now).Ok? && CreateProposal(db.control, a, now).value != db.control
    ensures Before(a.key) in db.control.proposals
    ensures var d, previous := CreateProposal(db.control, a, now).value, db.control.proposals[Before(a.key)].scenario;
      Dense(Reset(db.(control := d), s).control) <==>
        Dense(Reset(db, s).control) && !(s == previous && s != a.scenario)
  {
    var c, d := db.control, CreateProposal(db.control, a, now).value;
    CreateAdds(c, a, now);
    hide CreateProposal, Reset;
    assert d.proposals[a.key].scenario == a.scenario;
    assert forall k <- c.proposals :: k in d.proposals && d.proposals[k].scenario == c.proposals[k].scenario;
    assert Dense(d);
    ResetDenseExactly(db, s);
    ResetDenseExactly(db.(control := d), s);
  }

  /** The event does not revise a version of another scenario. */
  predicate RevisesWithin(c: Control, e: Event) {
    e.Create? && e.args.key.version > 1 && Before(e.args.key) in c.proposals ==>
      c.proposals[Before(e.args.key)].scenario == e.args.scenario
  }

  lemma CreateKeepsDense(c: Control, a: ProposalArgs, now: int)
    requires Dense(c) && OneScenario(c) && LiveLast(c) && CreateProposal(c, a, now).Ok?
    requires a.key.version > 1 && Before(a.key) in c.proposals ==> c.proposals[Before(a.key)].scenario == a.scenario
    ensures var d := CreateProposal(c, a, now).value; Dense(d) && OneScenario(d)
  {
    var d := CreateProposal(c, a, now).value;
    CreateAdds(c, a, now);
    if d != c {
      assert d.proposals[a.key].scenario == a.scenario;
      hide CreateProposal;
      forall k <- d.proposals | k.version > 1
        ensures Before(k) in d.proposals && d.proposals[Before(k)].scenario == d.proposals[k].scenario
      {
        if k != a.key {
          assert k in c.proposals && Before(k) in c.proposals;
        }
      }
    }
  }

  lemma ResetKeepsDense(db: Db, s: string)
    requires Dense(db.control) && OneScenario(db.control)
    ensures Dense(Reset(db, s).control) && OneScenario(Reset(db, s).control)
  {
    ResetIsExact(db, s);
  }

  lemma StepKeepsDense(db: Db, e: Event)
    requires LiveLast(db.control) && Dense(db.control) && OneScenario(db.control) && RevisesWithin(db.control, e)
    ensures Dense(Next(db, e).control) && OneScenario(Next(db, e).control)
  {
    hide Dense, OneScenario, CreateProposal, Decide, Reset, LiveLast;
    if e.Create? {
      if CreateProposal(db.control, e.args, e.now).Ok? {
        CreateKeepsDense(db.control, e.args, e.now);
      }
    } else if e.ResetScenario? {
      ResetKeepsDense(db, e.scenario);
    } else if e.Record? {
      if Decide(db.control, e.decision, e.at).Ok? {
        RecordKeepsDense(db.control, e.decision, e.at);
      }
    } else {
      OthersKeepProposals(db, e);
      SameProposalsDense(db.control, Next(db, e).control);
    }
  }

  lemma SameProposalsDense(c: Control, d: Control)
    requires Dense(c) && OneScenario(c) && d.proposals == c.proposals
    ensures Dense(d) && OneScenario(d)
  {
  }

  lemma OthersKeepProposals(db: Db, e: Event)
    requires !e.Create? && !e.ResetScenario? && !e.Record?
    ensures Next(db, e).control.proposals == db.control.proposals
  {
    hide Mutate, Authorised, Claimable, AppendAudit, StoreBacktest, Executed, Replay;
  }

  lemma RecordKeepsDense(c: Control, a: DecisionArgs, now: int)
    requires Dense(c) && OneScenario(c) && Decide(c, a, now).Ok?
    ensures Dense(Decide(c, a, now).value) && OneScenario(Decide(c, a, now).value)
  {
    DecideDecides(c, a, now);
    hide Decide;
  }

  /** As long as no revision crosses scenarios, the versions of every proposal are exactly 1..latest in every
      reachable state, resets included. */
  lemma {:induction false} VersionsAreDense(states: seq<Db>, events: seq<Event>, k: nat)
    requires IsRun(states, events) && k < |states|
    requires forall i | 0 <= i < k :: RevisesWithin(states[i].control, events[i])
    ensures Dense(states[k].control) && OneScenario(states[k].control)
  {
    if k > 0 {
      hide Next, Dense, OneScenario;
      VersionsAreDense(states, events, k - 1);
      RunInv(states, events, k - 1);
      assert LiveLast(states[k - 1].control);
      hide Inv, LiveLast;
      assert RevisesWithin(states[k - 1].control, events[k - 1]);
      assert states[k - 1 + 1] == Next(states[k - 1], events[k - 1]);
      StepKeepsDense(states[k - 1], events[k - 1]);
    }
  }

  const FIRST := ProposalArgs(PKey(1, 1), 7, AssignTask, 0, TaskAt(1), 0, 100, "first", None, false, "a-v1")
  const SECOND := FIRST.(key := PKey(1, 2), idempotency := "second", scenario := "b-v1")

  /** The revision guard does not compare scenarios: a version revised in another scenario survives the reset
      of the first, and the versions of the proposal no longer start at one. */
  lemma ResetLeavesAGap() returns (states: seq<Db>, events: seq<Event>)
    ensures IsRun(states, events)
    ensures var c := states[|states| - 1].control; PKey(1, 2) in c.proposals && PKey(1, 1) !in c.proposals && !Dense(c)
  {
    var p1 := Proposal(7, AssignTask, 0, TaskAt(1), 0, Pending, 100, "first", None, "a-v1");
    var p2 := Proposal(7, AssignTask, 0, TaskAt(1), 0, Pending, 100, "second", None, "b-v1");
    var c1 := EMPTY.control.(proposals := map[PKey(1, 1) := p1]);
    var c2 := c1.(proposals := map[PKey(1, 1) := p1.(status := Superseded), PKey(1, 2) := p2]);
    var s1, s2 := EMPTY.(control := c1), EMPTY.(control := c2);
    var s3 := Reset(s2, "a-v1");
    states, events := [EMPTY, s1, s2, s3], [Create(FIRST, 0), Create(SECOND, 0), ResetScenario("a-v1")];
    FirstCreates(p1, c1);
    SecondCreates(p1, p2, c1, c2);
    FirstIsReset(p1, p2, s2, c2);
    hide Reset, CreateProposal, Dense;
    assert forall i | 0 <= i < 3 :: states[i + 1] == Next(states[i], events[i]);
  }

  lemma FirstCreates(p1: Proposal, c1: Control)
    requires p1 == Proposal(7, AssignTask, 0, TaskAt(1), 0, Pending, 100, "first", None, "a-v1")
    requires c1 == EMPTY.control.(proposals := map[PKey(1, 1) := p1])
    ensures CreateProposal(EMPTY.control, FIRST, 0) == Ok(c1)
  {
  }

  lemma FirstIsReset(p1: Proposal, p2: Proposal, s2: Db, c2: Control)
    requires p1.scenario == "a-v1" && p2.scenario == "b-v1" && s2 == EMPTY.(control := c2)
    requires c2.proposals == map[PKey(1, 1) := p1.(status := Superseded), PKey(1, 2) := p2]
    ensures var c := Reset(s2, "a-v1").control; PKey(1, 2) in c.proposals && PKey(1, 1) !in c.proposals && !Dense(c)
  {
    ResetIsExact(s2, "a-v1");
    hide Reset;
    assert "a-v1"[0] != "b-v1"[0];
    assert Before(PKey(1, 2)) == PKey(1, 1);
  }

  lemma SecondCreates(p1: Proposal, p2: Proposal, c1: Control, c2: Control)
    requires p1 == Proposal(7, AssignTask, 0, TaskAt(1), 0, Pending, 100, "first", None, "a-v1")
    requires p2 == Proposal(7, AssignTask, 0, TaskAt(1), 0, Pending, 100, "second", None, "b-v1")
    requires c1 == EMPTY.control.(proposals := map[PKey(1, 1) := p1])
    requires c2 == c1.(proposals := map[PKey(1, 1) := p1.(status := Superseded), PKey(1, 2) := p2])
    ensures CreateProposal(c1, SECOND, 0) == Ok(c2)
  {
    assert !SameRequest(c1.proposals[PKey(1, 1)], SECOND) by {
      assert |"first"| != |"second"|;
    }
    assert Before(SECOND.key) == PKey(1, 1);
    var superseded := c1.proposals[PKey(1, 1) := p1.(status := Superseded)];
    assert superseded == map[PKey(1, 1) := p1.(status := Superseded)];
    assert !LiveVersion(superseded, 1);
  }
}
