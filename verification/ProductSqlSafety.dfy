/** Decisions, executions and resets keep the invariant; so does every run. */
module ProductSqlSafety {
  import opened Common
  import opened ProductSql
  import opened ProductSqlInvariants

  // ---- record_approval_decision ----

  ghost predicate DecidesOne(c: Control, d: Control, a: DecisionArgs) {
    && a.key in c.proposals && a.key !in c.decisions && c.proposals[a.key].status == Pending
    && c.proposals[a.key].scenario == a.scenario && c.proposals[a.key].requester == a.requester && a.requester != a.approver
    && d.proposals == c.proposals[a.key := c.proposals[a.key].(status := if a.approve then Approved else Rejected)]
    && d.decisions == c.decisions[a.key := Decision(a.approve, a.requester, a.approver, a.scenario)]
    && d.executions == c.executions
    && (!a.approve ==> d.nonces == c.nonces)
    && (a.approve ==>
          && a.nonce.Some? && a.nonce.value !in c.nonces && (forall n <- c.nonces :: c.nonces[n].key != a.key)
          && d.nonces == c.nonces[a.nonce.value :=
               Nonce(a.key, a.approver, a.payload, a.targetsSha, a.grantExpires, false, a.scenario)])
  }

  lemma DecideDecides(c: Control, a: DecisionArgs, now: int)
    requires Decide(c, a, now).Ok?
    ensures DecidesOne(c, Decide(c, a, now).value, a)
  {
  }

  lemma DecideKeepsProposals(c: Control, d: Control, a: DecisionArgs)
    requires DecidesOne(c, d, a) && LiveLast(c) && Numbered(c) && OnePerRequest(c)
    ensures LiveLast(d) && Numbered(d) && OnePerRequest(d)
  {
    assert forall j, k | j in d.proposals && k in d.proposals ::
      SameKey(d.proposals[j], d.proposals[k]) == SameKey(c.proposals[j], c.proposals[k]);
  }

  lemma DecideKeepsDecided(c: Control, d: Control, a: DecisionArgs)
    requires DecidesOne(c, d, a) && Decided(c) && DecisionsRef(c)
    ensures Decided(d) && DecisionsRef(d)
  {
  }

  lemma DecideKeepsNonces(c: Control, d: Control, a: DecisionArgs)
    requires DecidesOne(c, d, a) && NoncesRef(c) && NoncesBound(c)
    ensures NoncesRef(d) && NoncesBound(d)
  {
  }

  lemma DecideKeepsReferences(c: Control, d: Control, l: Trail, a: DecisionArgs)
    requires DecidesOne(c, d, a) && ExecutionsRef(c) && AuditsRef(c, l)
    ensures ExecutionsRef(d) && AuditsRef(d, l)
  {
    assert forall k <- c.proposals :: k in d.proposals && d.proposals[k].scenario == c.proposals[k].scenario;
    hide DecidesOne;
  }

  lemma DecideKeepsExecutions(c: Control, d: Control, l: Trail, a: DecisionArgs)
    requires DecidesOne(c, d, a) && ExecutedOnce(c) && Audited(c, l)
    ensures ExecutedOnce(d) && Audited(d, l)
  {
    assert forall n, k :: UsedFor(d, n, k) == UsedFor(c, n, k);
    assert forall k :: Executed(d, k) == Executed(c, k);
    assert forall n <- d.nonces :: d.nonces[n].used ==> n in c.nonces && d.nonces[n] == c.nonces[n];
    assert d.executions == c.executions;
    hide UsedFor, Executed, DecidesOne;
  }

  lemma DecideKeeps(db: Db, a: DecisionArgs, now: int)
    requires Inv(db) && Decide(db.control, a, now).Ok?
    ensures Inv(db.(control := Decide(db.control, a, now).value))
  {
    var c, d := db.control, Decide(db.control, a, now).value;
    DecideDecides(c, a, now);
    hide Decide, DecidesOne, LiveLast, Numbered, Decided, OnePerRequest, NoncesBound, ExecutedOnce, DecisionsRef,
      NoncesRef, ExecutionsRef, AuditsRef, Audited, BusinessInv, BusinessRef;
    DecideKeepsProposals(c, d, a);
    DecideKeepsDecided(c, d, a);
    DecideKeepsNonces(c, d, a);
    DecideKeepsReferences(c, d, db.trail, a);
    DecideKeepsExecutions(c, d, db.trail, a);
  }

  // ---- store_alert_backtest ----

  lemma StoreKeeps(db: Db, ref: nat, t: Backtest)
    requires Inv(db) && StoreBacktest(db.business, ref, t).Ok?
    ensures Inv(db.(business := StoreBacktest(db.business, ref, t).value))
  {
    var b, d := db.business, StoreBacktest(db.business, ref, t).value;
    hide ControlInv, ControlRef, AuditsRef, Audited;
    assert d.tasks == b.tasks && d.conclusions == b.conclusions && d.risks == b.risks && d.rules == b.rules;
    assert RulesRef(d);
    assert forall k :: Concluded(d, k) == Concluded(b, k);
  }

  // ---- the mutations ----

  /** A task is inserted, and nothing pointed at it. */
  lemma NewTaskKeeps(b: Business, task: nat, scenario: string)
    requires BusinessInv(b) && task !in b.tasks
    ensures BusinessInv(b.(tasks := b.tasks[task := NewTask(scenario)]))
  {
    var d := b.(tasks := b.tasks[task := NewTask(scenario)]);
    assert forall k :: Concluded(d, k) == Concluded(b, k);
    assert forall k <- b.conclusions :: b.conclusions[k].task != task;
    assert forall r <- b.risks :: b.risks[r].task != task;
    hide Concluded;
  }

  lemma NewRiskKeeps(b: Business, task: nat, risk: nat, scenario: string)
    requires RisksRef(b) && RisksCoupled(b) && task in b.tasks && b.tasks[task] == NewTask(scenario)
    requires forall r <- b.risks :: b.risks[r].task != task
    ensures var d := b.(risks := b.risks[risk := Risk(task, UnderInvestigation, 1, scenario)]); RisksRef(d) && RisksCoupled(d)
  {
  }

  lemma OpenRiskKeeps(b: Business, task: nat, risk: nat, scenario: string)
    requires BusinessInv(b) && task !in b.tasks && risk !in b.risks
    ensures BusinessInv(b.(tasks := b.tasks[task := NewTask(scenario)],
      risks := b.risks[risk := Risk(task, UnderInvestigation, 1, scenario)]))
  {
    var t := b.(tasks := b.tasks[task := NewTask(scenario)]);
    assert forall r <- b.risks :: b.risks[r].task != task;
    hide RisksCoupled, RisksRef;
    NewTaskKeeps(b, task, scenario);
    var d := t.(risks := b.risks[risk := Risk(task, UnderInvestigation, 1, scenario)]);
    assert forall k :: Concluded(d, k) == Concluded(t, k);
    hide Concluded;
    NewRiskKeeps(t, task, risk, scenario);
  }

  lemma NewRuleKeeps(b: Business, rule: nat, backtest: nat, spec: nat, scenario: string)
    requires BusinessInv(b) && backtest in b.backtests && b.backtests[backtest].scenario == scenario
    ensures BusinessInv(b.(rules := b.rules[rule := Rule(backtest, spec, scenario)]))
  {
    var d := b.(rules := b.rules[rule := Rule(backtest, spec, scenario)]);
    assert forall k :: Concluded(d, k) == Concluded(b, k);
    hide Concluded;
  }

  /** A task that stays open changes; its conclusions, if it has any, keep it resolved. */
  lemma TouchKeeps(b: Business, task: nat, t: Task)
    requires BusinessInv(b) && task in b.tasks && t.scenario == b.tasks[task].scenario
    requires t.status == Closed <==> b.tasks[task].status == Closed
    requires b.tasks[task].status == Resolved ==> t.status == Resolved
    ensures BusinessInv(b.(tasks := b.tasks[task := t]))
  {
    var d := b.(tasks := b.tasks[task := t]);
    assert forall k :: Concluded(d, k) == Concluded(b, k);
    hide Concluded;
  }

  lemma ConcludeKeeps(b: Business, task: nat, version: nat, name: string, scenario: string)
    requires BusinessInv(b) && task in b.tasks && b.tasks[task].status == Resolved && b.tasks[task].scenario == scenario
    requires name !in b.conclusions
    ensures BusinessInv(b.(conclusions := b.conclusions[name := Conclusion(task, version, scenario)]))
  {
    var d := b.(conclusions := b.conclusions[name := Conclusion(task, version, scenario)]);
    forall k | Concluded(b, k)
      ensures Concluded(d, k)
    {
      var q :| q in b.conclusions && b.conclusions[q].task == k;
      assert d.conclusions[q].task == k;
    }
  }

  lemma CloseKeeps(b: Business, task: nat, disposition: Option<RiskStatus>, t: Task, name: string)
    requires BusinessInv(b) && task in b.tasks && b.tasks[task].status == Resolved
    requires t.status == Closed && t.scenario == b.tasks[task].scenario
    requires name in b.conclusions && b.conclusions[name].task == task
    requires (exists r <- b.risks :: b.risks[r].task == task) ==> disposition.Some? && disposition.value != UnderInvestigation
    ensures BusinessInv(b.(tasks := b.tasks[task := t], risks := Disposed(b.risks, task, disposition)))
  {
    var d := b.(tasks := b.tasks[task := t], risks := Disposed(b.risks, task, disposition));
    assert forall k :: Concluded(d, k) == Concluded(b, k);
    assert Concluded(d, task);
    hide Concluded;
    CloseKeepsRisks(b, d, task, disposition, t);
    hide Disposed, RisksCoupled, RisksRef;
  }

  lemma CloseKeepsRisks(b: Business, d: Business, task: nat, disposition: Option<RiskStatus>, t: Task)
    requires RisksCoupled(b) && RisksRef(b) && task in b.tasks && b.tasks[task].status == Resolved
    requires t.status == Closed && t.scenario == b.tasks[task].scenario
    requires d.tasks == b.tasks[task := t] && d.risks == Disposed(b.risks, task, disposition)
    requires (exists r <- b.risks :: b.risks[r].task == task) ==> disposition.Some? && disposition.value != UnderInvestigation
    ensures RisksCoupled(d) && RisksRef(d)
  {
  }

  lemma MutateKeeps(b: Business, m: Mutation, targets: Targets, scenario: string)
    requires BusinessInv(b) && Mutate(b, m, targets, scenario).Ok?
    ensures BusinessInv(Mutate(b, m, targets, scenario).value.business)
  {
    hide BusinessInv, Disposed;
    match m
    case MOpenRisk(task, risk) => OpenRiskKeeps(b, task, risk, scenario);
    case MCreateTask(task) => NewTaskKeeps(b, task, scenario);
    case MFromAlertHit(task, _, _) => NewTaskKeeps(b, task, scenario);
    case MCreateRule(rule, backtest, spec) => NewRuleKeeps(b, rule, backtest, spec, scenario);
    case MAssign(task, expected, assignee) =>
      TouchKeeps(b, task, b.tasks[task].(assignee := Some(assignee), version := b.tasks[task].version + 1));
    case MTransition(task, expected, fromStatus, toStatus) =>
      TouchKeeps(b, task, b.tasks[task].(status := toStatus, version := b.tasks[task].version + 1));
    case MAddConclusion(task, expected, name) =>
      ConcludeKeeps(b, task, expected + 1, name, scenario);
      var c := b.(conclusions := b.conclusions[name := Conclusion(task, expected + 1, scenario)]);
      TouchKeeps(c, task, b.tasks[task].(version := b.tasks[task].version + 1));
    case MClose(task, expected, name, disposition) =>
      CloseKeeps(b, task, disposition, b.tasks[task].(status := Closed, version := b.tasks[task].version + 1), name);
  }

  // ---- the shell ----

  ghost predicate PerformsOne(c: Control, d: Control, l: Trail, k: Trail, call: Call, x: Execution) {
    && call.key in c.proposals && call.key in c.decisions && c.proposals[call.key].scenario == call.scenario
    && call.execution !in c.executions && !Executed(c, call.key) && call.execution !in l.audits
    && call.nonce in c.nonces && !c.nonces[call.nonce].used && c.nonces[call.nonce].key == call.key
    && x.key == call.key && x.scenario == call.scenario
    && d.proposals == c.proposals && d.decisions == c.decisions
    && d.nonces == c.nonces[call.nonce := c.nonces[call.nonce].(used := true)]
    && d.executions == c.executions[call.execution := x]
    && k.traces == l.traces
    && k.audits == l.audits[call.execution := Audit(call.execution, call.key, x.before, x.after, x.scenario)]
  }

  lemma PerformPerforms(db: Db, call: Call, now: int)
    requires Perform(db, call, now).Ok?
    ensures var (after, receipt) := Perform(db, call, now).value;
      && call.execution in after.control.executions && call.key in db.control.proposals
      && PerformsOne(db.control, after.control, db.trail, after.trail, call, after.control.executions[call.execution])
      && var mutated := Mutate(db.business, call.mutation, db.control.proposals[call.key].targets, call.scenario);
         mutated.Ok? && after.business == mutated.value.business
  {
    hide Mutate;
  }

  lemma PerformKeepsReferences(c: Control, d: Control, l: Trail, k: Trail, call: Call, x: Execution)
    requires PerformsOne(c, d, l, k, call, x) && ControlRef(c) && AuditsRef(c, l)
    ensures ControlRef(d) && AuditsRef(d, k)
  {
  }

  lemma PerformKeepsProposals(c: Control, d: Control, l: Trail, k: Trail, call: Call, x: Execution)
    requires PerformsOne(c, d, l, k, call, x) && LiveLast(c) && Numbered(c) && Decided(c) && OnePerRequest(c) && NoncesBound(c)
    ensures LiveLast(d) && Numbered(d) && Decided(d) && OnePerRequest(d) && NoncesBound(d)
  {
  }

  lemma PerformKeepsAudited(c: Control, d: Control, l: Trail, k: Trail, call: Call, x: Execution)
    requires PerformsOne(c, d, l, k, call, x) && Audited(c, l)
    ensures Audited(d, k)
  {
  }

  lemma PerformKeepsUsed(c: Control, d: Control, l: Trail, k: Trail, call: Call, x: Execution, key: PKey)
    requires PerformsOne(c, d, l, k, call, x)
    ensures (exists n :: UsedFor(c, n, key)) ==> exists n :: UsedFor(d, n, key)
    ensures Executed(c, key) ==> Executed(d, key)
    ensures UsedFor(d, call.nonce, call.key) && Executed(d, call.key)
  {
    if exists n :: UsedFor(c, n, key) {
      var n :| UsedFor(c, n, key);
      assert UsedFor(d, n, key);
    }
    if Executed(c, key) {
      var e :| e in c.executions && c.executions[e].key == key;
      assert d.executions[e].key == key;
    }
    assert d.executions[call.execution].key == call.key;
  }

  lemma PerformKeepsExecuted(c: Control, d: Control, l: Trail, k: Trail, call: Call, x: Execution)
    requires PerformsOne(c, d, l, k, call, x) && ExecutedOnce(c)
    ensures ExecutedOnce(d)
  {
    assert forall e <- c.executions :: c.executions[e].key != call.key;
    hide UsedFor, Executed;
    forall e <- d.executions
      ensures exists n :: UsedFor(d, n, d.executions[e].key)
    {
      PerformKeepsUsed(c, d, l, k, call, x, d.executions[e].key);
    }
    forall n <- d.nonces | d.nonces[n].used
      ensures Executed(d, d.nonces[n].key)
    {
      PerformKeepsUsed(c, d, l, k, call, x, d.nonces[n].key);
    }
  }

  lemma PerformKeepsControl(c: Control, d: Control, l: Trail, k: Trail, call: Call, x: Execution)
    requires PerformsOne(c, d, l, k, call, x) && ControlInv(c) && ControlRef(c) && AuditsRef(c, l) && Audited(c, l)
    ensures ControlInv(d) && ControlRef(d) && AuditsRef(d, k) && Audited(d, k)
  {
    hide PerformsOne, LiveLast, Numbered, Decided, OnePerRequest, NoncesBound, ExecutedOnce, ControlRef, AuditsRef, Audited;
    PerformKeepsReferences(c, d, l, k, call, x);
    PerformKeepsProposals(c, d, l, k, call, x);
    PerformKeepsExecuted(c, d, l, k, call, x);
    PerformKeepsAudited(c, d, l, k, call, x);
  }

  lemma PerformKeeps(db: Db, call: Call, now: int)
    requires Inv(db) && Perform(db, call, now).Ok?
    ensures Inv(Perform(db, call, now).value.0)
  {
    hide Perform, Mutate, PerformsOne, ControlInv, ControlRef, AuditsRef, Audited, BusinessRef, RisksCoupled, ConclusionsCoupled;
    var after := Perform(db, call, now).value.0;
    PerformPerforms(db, call, now);
    MutateKeeps(db.business, call.mutation, db.control.proposals[call.key].targets, call.scenario);
    PerformKeepsControl(db.control, after.control, db.trail, after.trail, call, after.control.executions[call.execution]);
  }

  // ---- reset_product_scenario ----

  /** No row of the scenario is left in the table. */
  predicate Gone(db: Db, t: Table, s: string) {
    match t
    case AuditEvent => forall a <- db.trail.audits :: db.trail.audits[a].scenario != s
    case RiskAnnotation => forall r <- db.business.risks :: db.business.risks[r].scenario != s
    case InvestigationConclusion => forall k <- db.business.conclusions :: db.business.conclusions[k].scenario != s
    case MetricAlertRule => forall r <- db.business.rules :: db.business.rules[r].scenario != s
    case CommandExecution => forall e <- db.control.executions :: db.control.executions[e].scenario != s
    case ApprovalNonce => forall n <- db.control.nonces :: db.control.nonces[n].scenario != s
    case ApprovalDecision => forall k <- db.control.decisions :: db.control.decisions[k].scenario != s
    case OperationProposal => forall k <- db.control.proposals :: db.control.proposals[k].scenario != s
    case AlertBacktestResult => forall r <- db.business.backtests :: db.business.backtests[r].scenario != s
    case InvestigationTask => forall t <- db.business.tasks :: db.business.tasks[t].scenario != s
    case ProductTraceEvent => forall e <- db.trail.traces :: db.trail.traces[e] != s
  }

  /** The tables whose rows reference rows of `t`. */
  function Children(t: Table): set<Table> {
    match t
    case AuditEvent => {}
    case RiskAnnotation => {}
    case InvestigationConclusion => {}
    case MetricAlertRule => {}
    case CommandExecution => {AuditEvent}
    case ApprovalNonce => {}
    case ApprovalDecision => {ApprovalNonce}
    case OperationProposal => {ApprovalDecision, CommandExecution, AuditEvent}
    case AlertBacktestResult => {MetricAlertRule}
    case InvestigationTask => {RiskAnnotation, InvestigationConclusion}
    case ProductTraceEvent => {}
  }

  /** A delete whose children are already gone leaves every reference intact. */
  lemma DeleteKeepsReferences(db: Db, t: Table, s: string)
    requires RefInv(db) && forall u <- Children(t) :: Gone(db, u, s)
    ensures RefInv(Delete(db, t, s)) && Gone(Delete(db, t, s), t, s)
  {
    if t == OperationProposal || t == CommandExecution || t == ApprovalDecision || t == ApprovalNonce {
      assert t == OperationProposal ==> Gone(db, ApprovalDecision, s) && Gone(db, CommandExecution, s) && Gone(db, AuditEvent, s);
      assert t == CommandExecution ==> Gone(db, AuditEvent, s);
      assert t == ApprovalDecision ==> Gone(db, ApprovalNonce, s);
    } else if t == AlertBacktestResult {
      assert Gone(db, MetricAlertRule, s);
    } else if t == InvestigationTask {
      assert Gone(db, RiskAnnotation, s) && Gone(db, InvestigationConclusion, s);
    }
  }

  lemma DeleteKeepsGone(db: Db, t: Table, u: Table, s: string)
    requires Gone(db, u, s)
    ensures Gone(Delete(db, t, s), u, s)
  {
  }

  lemma OrderIsSafe(n: nat)
    requires n < |DELETE_ORDER|
    ensures forall u <- Children(DELETE_ORDER[n]) :: u in DELETE_ORDER[..n]
  {
    assert DELETE_ORDER[..n] == DELETE_ORDER[..n];
    var o := DELETE_ORDER;
    assert o[0] == AuditEvent && o[1] == RiskAnnotation && o[2] == InvestigationConclusion && o[3] == MetricAlertRule;
    assert o[4] == CommandExecution && o[5] == ApprovalNonce && o[6] == ApprovalDecision && o[7] == OperationProposal;
    assert o[8] == AlertBacktestResult && o[9] == InvestigationTask && o[10] == ProductTraceEvent;
    assert n > 4 ==> o[0] in o[..n] && o[4] in o[..n];
    assert n == 4 ==> o[0] in o[..n];
    assert n > 6 ==> o[6] in o[..n];
    assert n == 6 ==> o[5] in o[..n];
    assert n > 3 ==> o[1] in o[..n] && o[2] in o[..n] && o[3] in o[..n];
  }

  /** After each single delete no surviving row references a deleted one, and the tables deleted from so far
      hold nothing of the scenario. */
  lemma {:induction false} EachDeleteIsSafe(db: Db, s: string, n: nat)
    requires RefInv(db) && n <= |DELETE_ORDER|
    ensures RefInv(Deleted(db, s, n)) && forall u <- DELETE_ORDER[..n] :: Gone(Deleted(db, s, n), u, s)
  {
    hide RefInv, Gone, Delete, Children;
    if n > 0 {
      EachDeleteIsSafe(db, s, n - 1);
      OrderIsSafe(n - 1);
      var before, t := Deleted(db, s, n - 1), DELETE_ORDER[n - 1];
      DeleteKeepsReferences(before, t, s);
      forall u <- DELETE_ORDER[..n]
        ensures Gone(Deleted(db, s, n), u, s)
      {
        if u != t {
          assert u in DELETE_ORDER[..n - 1];
          DeleteKeepsGone(before, t, u, s);
        }
      }
    }
  }

  /** The reset removes exactly the rows of its scenario and changes no other row. */
  lemma ResetIsExact(db: Db, s: string)
    ensures Reset(db, s) == Without(db, s)
  {
    DeletedIsPartial(db, s, |DELETE_ORDER|);
  }

  lemma ResetKeepsProposals(db: Db, s: string)
    requires RefInv(db) && LiveLast(db.control) && Numbered(db.control) && Decided(db.control) && OnePerRequest(db.control)
    ensures var c := Without(db, s).control; LiveLast(c) && Numbered(c) && Decided(c) && OnePerRequest(c)
  {
  }

  lemma ResetKeepsNonces(db: Db, s: string)
    requires RefInv(db) && NoncesBound(db.control)
    ensures NoncesBound(Without(db, s).control)
  {
  }

  /** The records about one version stand in one scenario. */
  lemma SameScenario(c: Control, n: nat, e: nat)
    requires ControlRef(c) && n in c.nonces && e in c.executions && c.nonces[n].key == c.executions[e].key
    ensures c.nonces[n].scenario == c.executions[e].scenario
  {
  }

  lemma ResetKeepsExecuted(db: Db, s: string)
    requires RefInv(db) && ExecutedOnce(db.control)
    ensures ExecutedOnce(Without(db, s).control)
  {
    var c, d := db.control, Without(db, s).control;
    forall e <- d.executions
      ensures exists n :: UsedFor(d, n, d.executions[e].key)
    {
      var n :| UsedFor(c, n, c.executions[e].key);
      SameScenario(c, n, e);
      assert UsedFor(d, n, d.executions[e].key);
    }
    forall n <- d.nonces | d.nonces[n].used
      ensures Executed(d, d.nonces[n].key)
    {
      assert Executed(c, c.nonces[n].key);
      var e :| e in c.executions && c.executions[e].key == c.nonces[n].key;
      SameScenario(c, n, e);
      assert d.executions[e].key == d.nonces[n].key;
    }
  }

  lemma ResetKeepsAudited(db: Db, s: string)
    requires Audited(db.control, db.trail)
    ensures Audited(Without(db, s).control, Without(db, s).trail)
  {
  }

  lemma ResetKeepsBusiness(db: Db, s: string)
    requires BusinessInv(db.business)
    ensures RisksCoupled(Without(db, s).business) && ConclusionsCoupled(Without(db, s).business)
  {
    var b, d := db.business, Without(db, s).business;
    forall t <- d.tasks | d.tasks[t].status == Closed
      ensures Concluded(d, t)
    {
      assert Concluded(b, t);
      var k :| k in b.conclusions && b.conclusions[k].task == t;
      assert d.conclusions[k].task == t;
    }
  }

  lemma ResetKeeps(db: Db, s: string)
    requires Inv(db)
    ensures Inv(Reset(db, s))
  {
    hide RefInv, Gone, Delete, LiveLast, Numbered, Decided, OnePerRequest, NoncesBound, ExecutedOnce, Audited, RisksCoupled,
      ConclusionsCoupled, Reset, Without;
    ResetIsExact(db, s);
    AllDeletesAreSafe(db, s);
    ResetKeepsProposals(db, s);
    ResetKeepsNonces(db, s);
    ResetKeepsExecuted(db, s);
    ResetKeepsAudited(db, s);
    ResetKeepsBusiness(db, s);
  }

  lemma AllDeletesAreSafe(db: Db, s: string)
    requires RefInv(db)
    ensures RefInv(Reset(db, s)) && BusinessRef(Reset(db, s).business)
  {
    hide Gone, Delete, ControlRef, BusinessRef, AuditsRef;
    EachDeleteIsSafe(db, s, |DELETE_ORDER|);
  }

  // ---- every run ----

  lemma AppendChangesNothing(db: Db, event: nat, a: Audit)
    requires Audited(db.control, db.trail) && AppendAudit(db, event, a).Ok?
    ensures AppendAudit(db, event, a).value == db.trail
  {
    assert a.execution in db.trail.audits;
    assert db.trail.audits[a.execution].execution == a.execution;
  }

  lemma TraceKeeps(db: Db, id: nat, of: string)
    requires Inv(db)
    ensures Inv(db.(trail := db.trail.(traces := db.trail.traces[id := of])))
  {
    hide ControlInv, BusinessInv, ControlRef, BusinessRef;
  }

  lemma ControlStep(db: Db, e: Event)
    requires Inv(db) && (e.Create? || e.Record?)
    ensures Inv(Next(db, e))
  {
    hide Inv, CreateProposal, Decide;
    if e.Create? {
      if CreateProposal(db.control, e.args, e.now).Ok? {
        CreateKeeps(db, e.args, e.now);
      }
    } else if Decide(db.control, e.decision, e.at).Ok? {
      DecideKeeps(db, e.decision, e.at);
    }
  }

  lemma CommandStep(db: Db, call: Call, when: int)
    requires Inv(db)
    ensures Inv(Next(db, Command(call, when)))
  {
    hide Inv, Perform, Executed, Replay;
    if Perform(db, call, when).Ok? {
      PerformKeeps(db, call, when);
    }
  }

  lemma RecordStep(db: Db, e: Event)
    requires Inv(db) && (e.Store? || e.Append? || e.Trace?)
    ensures Inv(Next(db, e))
  {
    assert Audited(db.control, db.trail);
    hide Inv, StoreBacktest, AppendAudit, Audited;
    if e.Store? {
      if StoreBacktest(db.business, e.ref, e.backtest).Ok? {
        StoreKeeps(db, e.ref, e.backtest);
      }
    } else if e.Append? {
      if AppendAudit(db, e.event, e.audit).Ok? {
        AppendChangesNothing(db, e.event, e.audit);
      }
    } else {
      TraceKeeps(db, e.id, e.of);
    }
  }

  lemma StepKeeps(db: Db, e: Event)
    requires Inv(db)
    ensures Inv(Next(db, e))
  {
    hide Inv, CreateProposal, Decide, StoreBacktest, Execute, AppendAudit, Reset;
    if e.Create? || e.Record? {
      ControlStep(db, e);
    } else if e.Command? {
      CommandStep(db, e.call, e.when);
    } else if e.ResetScenario? {
      ResetKeeps(db, e.scenario);
    } else {
      RecordStep(db, e);
    }
  }

  lemma {:induction false} RunInv(states: seq<Db>, events: seq<Event>, k: nat)
    requires IsRun(states, events) && k < |states|
    ensures Inv(states[k])
  {
    if k > 0 {
      hide Inv, Next;
      RunInv(states, events, k - 1);
      StepKeeps(states[k - 1], events[k - 1]);
      assert states[k - 1 + 1] == Next(states[k - 1], events[k - 1]);
    }
  }
}
