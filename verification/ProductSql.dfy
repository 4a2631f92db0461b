/** The tables of the product schema and the functions that write them: proposals, decisions, executions,
    audit, and the reset of one scenario. Every function is one transaction: an error leaves no trace. */
module ProductSql {
  import opened Common

  datatype PKey = PKey(id: nat, version: nat)

  datatype CommandType =
    OpenRisk | CreateTask | FromAlertHit | CreateRule | AssignTask | TransitionTask | AddConclusion | CloseTask

  /** The target_versions object of a proposal. */
  datatype Targets = TaskAndRisk | TaskAt(version: nat) | NewRule | OtherTargets

  datatype ProposalStatus = Pending | Approved | Rejected | Superseded

  datatype Proposal = Proposal(
    requester: nat, command: CommandType, payload: nat, targets: Targets, targetsSha: nat, status: ProposalStatus,
    expires: int, idempotency: string, seller: Option<nat>, scenario: string)

  datatype Decision = Decision(approve: bool, requester: nat, approver: nat, scenario: string)

  datatype Nonce = Nonce(
    key: PKey, approver: nat, payload: nat, targetsSha: nat, expires: int, used: bool, scenario: string)

  datatype Execution = Execution(
    key: PKey, actor: nat, command: CommandType, idempotency: string, before: nat, after: nat, committedAt: int, scenario: string)

  datatype TaskStatus = Open | InProgress | Blocked | Resolved | Closed

  datatype RiskStatus = UnderInvestigation | Confirmed | Dismissed | Inconclusive

  datatype Task = Task(status: TaskStatus, assignee: Option<string>, version: nat, scenario: string)

  datatype Conclusion = Conclusion(task: nat, version: nat, scenario: string)

  datatype Risk = Risk(task: nat, status: RiskStatus, version: nat, scenario: string)

  /** `hits` are the start instants of the windows reported as hits. */
  datatype Backtest = Backtest(spec: nat, evidence: nat, hits: set<int>, scenario: string)

  datatype Rule = Rule(backtest: nat, spec: nat, scenario: string)

  datatype Audit = Audit(execution: nat, key: PKey, before: nat, after: nat, scenario: string)

  datatype Control = Control(
    proposals: map<PKey, Proposal>, decisions: map<PKey, Decision>, nonces: map<nat, Nonce>, executions: map<nat, Execution>)

  datatype Business = Business(
    tasks: map<nat, Task>, conclusions: map<string, Conclusion>, risks: map<nat, Risk>, backtests: map<nat, Backtest>,
    rules: map<nat, Rule>)

  /** Trace events carry nothing here but their scenario. */
  datatype Trail = Trail(audits: map<nat, Audit>, traces: map<nat, string>)

  datatype Db = Db(control: Control, business: Business, trail: Trail)

  const EMPTY := Db(Control(map[], map[], map[], map[]), Business(map[], map[], map[], map[], map[]), Trail(map[], map[]))

  datatype SqlError =
    UniqueViolation | NotNullViolation | IntegrityViolation | NotAuthorised | NoData | SerializationFailure | InvalidParameter

  // ---- create_operation_proposal ----

  datatype ProposalArgs = ProposalArgs(
    key: PKey, requester: nat, command: CommandType, payload: nat, targets: Targets, targetsSha: nat, expires: int,
    idempotency: string, seller: Option<nat>, evidenceMatches: bool, scenario: string)

  predicate SameRequest(p: Proposal, a: ProposalArgs) {
    p.requester == a.requester && p.idempotency == a.idempotency
  }

  predicate SamePayload(p: Proposal, a: ProposalArgs) {
    p.command == a.command && p.payload == a.payload && p.seller == a.seller
  }

  predicate Live(p: Proposal) {
    p.status == Pending || p.status == Approved
  }

  /** The partial unique index on live versions, asked before the insert. */
  predicate LiveVersion(proposals: map<PKey, Proposal>, id: nat) {
    exists k <- proposals :: k.id == id && Live(proposals[k])
  }

  function Inserted(proposals: map<PKey, Proposal>, a: ProposalArgs, now: int): Result<map<PKey, Proposal>, SqlError> {
    if (a.command == OpenRisk) != a.seller.Some? || (a.command == OpenRisk && !a.evidenceMatches) then Err(InvalidParameter)
    else if a.key in proposals || LiveVersion(proposals, a.key.id) then Err(UniqueViolation)
    else if a.key.version == 0 || a.expires <= now then Err(IntegrityViolation)
    else Ok(proposals[a.key := Proposal(a.requester, a.command, a.payload, a.targets, a.targetsSha, Pending, a.expires,
              a.idempotency, a.seller, a.scenario)])
  }

  function Before(k: PKey): PKey
    requires k.version > 0
  {
    PKey(k.id, k.version - 1)
  }

  function CreateProposal(c: Control, a: ProposalArgs, now: int): Result<Control, SqlError> {
    if exists k <- c.proposals :: SameRequest(c.proposals[k], a) then
      if exists k <- c.proposals :: SameRequest(c.proposals[k], a) && !SamePayload(c.proposals[k], a) then Err(UniqueViolation)
      else Ok(c)
    else if a.key.version > 1 then
      var previous := Before(a.key);
      if previous !in c.proposals || c.proposals[previous].requester != a.requester
         || c.proposals[previous].status != Pending then Err(IntegrityViolation)
      else
        var superseded := c.proposals[previous := c.proposals[previous].(status := Superseded)];
        var inserted := Inserted(superseded, a, now);
        if inserted.Err? then Err(inserted.error) else Ok(c.(proposals := inserted.value))
    else if exists k <- c.proposals :: k.id == a.key.id then Err(IntegrityViolation)
    else
      var inserted := Inserted(c.proposals, a, now);
      if inserted.Err? then Err(inserted.error) else Ok(c.(proposals := inserted.value))
  }

  // ---- record_approval_decision ----

  /** A grant comes with an approval: nonce digest and expiry. */
  datatype DecisionArgs = DecisionArgs(
    key: PKey, requester: nat, approver: nat, approve: bool, nonce: Option<nat>, grantExpires: int, payload: nat,
    targetsSha: nat, scenario: string)

  function Decide(c: Control, a: DecisionArgs, now: int): Result<Control, SqlError> {
    if a.key !in c.proposals then Err(NotAuthorised)
    else
      var p := c.proposals[a.key];
      if p.status != Pending || p.requester != a.requester || p.payload != a.payload || p.targetsSha != a.targetsSha
         || p.scenario != a.scenario || p.expires <= now || a.requester == a.approver then Err(NotAuthorised)
      else if a.approve && (a.nonce.None? || a.grantExpires <= now || a.grantExpires > p.expires) then Err(IntegrityViolation)
      else if !a.approve && a.nonce.Some? then Err(IntegrityViolation)
      else if a.key in c.decisions then Err(UniqueViolation)
      else if a.approve && (a.nonce.value in c.nonces || exists n <- c.nonces :: c.nonces[n].key == a.key) then Err(UniqueViolation)
      else
        var decision := Decision(a.approve, a.requester, a.approver, a.scenario);
        var nonces :=
          if a.approve then
            c.nonces[a.nonce.value := Nonce(a.key, a.approver, a.payload, a.targetsSha, a.grantExpires, false, a.scenario)]
          else c.nonces;
        Ok(Control(c.proposals[a.key := p.(status := if a.approve then Approved else Rejected)],
             c.decisions[a.key := decision], nonces, c.executions))
  }

  // ---- store_alert_backtest ----

  function StoreBacktest(b: Business, ref: nat, t: Backtest): Result<Business, SqlError> {
    if ref in b.backtests then if b.backtests[ref] != t then Err(UniqueViolation) else Ok(b)
    else if exists r <- b.backtests :: b.backtests[r].spec == t.spec && b.backtests[r].scenario == t.scenario then Err(UniqueViolation)
    else Ok(b.(backtests := b.backtests[ref := t]))
  }

  // ---- the command functions: what each one changes ----

  datatype Mutation =
    | MOpenRisk(task: nat, risk: nat)
    | MCreateTask(task: nat)
    | MFromAlertHit(task: nat, hitRule: nat, hitStart: int)
    | MCreateRule(rule: nat, backtest: nat, spec: nat)
    | MAssign(task: nat, expected: nat, assignee: string)
    | MTransition(task: nat, expected: nat, fromStatus: TaskStatus, toStatus: TaskStatus)
    | MAddConclusion(task: nat, expected: nat, conclusion: string)
    | MClose(task: nat, expected: nat, conclusion: string, disposition: Option<RiskStatus>)

  function TypeOf(m: Mutation): CommandType {
    match m
    case MOpenRisk(_, _) => OpenRisk
    case MCreateTask(_) => CreateTask
    case MFromAlertHit(_, _, _) => FromAlertHit
    case MCreateRule(_, _, _) => CreateRule
    case MAssign(_, _, _) => AssignTask
    case MTransition(_, _, _, _) => TransitionTask
    case MAddConclusion(_, _, _) => AddConclusion
    case MClose(_, _, _, _) => CloseTask
  }

  predicate Allowed(a: TaskStatus, b: TaskStatus) {
    || (a == Open && (b == InProgress || b == Blocked))
    || (a == InProgress && (b == Blocked || b == Resolved))
    || (a == Blocked && (b == InProgress || b == Resolved))
  }

  /** The business tables after the mutation, with the versions the receipt names. */
  datatype Mutated = Mutated(business: Business, before: nat, after: nat)

  function NewTask(scenario: string): Task {
    Task(Open, None, 1, scenario)
  }

  /** The task a versioned command addresses: of the scenario, at the expected version. */
  predicate Addressed(b: Business, task: nat, expected: nat, targets: Targets, scenario: string) {
    && task in b.tasks && b.tasks[task].scenario == scenario
    && b.tasks[task].version == expected && targets == TaskAt(expected)
  }

  function Touched(b: Business, task: nat, t: Task): Mutated {
    Mutated(b.(tasks := b.tasks[task := t.(version := t.version + 1)]), t.version, t.version + 1)
  }

  function Mutate(b: Business, m: Mutation, targets: Targets, scenario: string): Result<Mutated, SqlError> {
    match m
    case MOpenRisk(task, risk) =>
      if targets != TaskAndRisk || task in b.tasks || risk in b.risks then Err(IntegrityViolation)
      else Ok(Mutated(b.(tasks := b.tasks[task := NewTask(scenario)],
                         risks := b.risks[risk := Risk(task, UnderInvestigation, 1, scenario)]), 0, 1))
    case MCreateTask(task) =>
      if targets != TaskAt(0) || task in b.tasks then Err(IntegrityViolation)
      else Ok(Mutated(b.(tasks := b.tasks[task := NewTask(scenario)]), 0, 1))
    case MFromAlertHit(task, hitRule, hitStart) =>
      if targets != TaskAt(0) || task in b.tasks || hitRule !in b.rules || b.rules[hitRule].scenario != scenario
         || b.rules[hitRule].backtest !in b.backtests || hitStart !in b.backtests[b.rules[hitRule].backtest].hits
      then Err(IntegrityViolation)
      else Ok(Mutated(b.(tasks := b.tasks[task := NewTask(scenario)]), 0, 1))
    case MCreateRule(rule, backtest, spec) =>
      if targets != NewRule || rule in b.rules || backtest !in b.backtests || b.backtests[backtest].spec != spec
         || b.backtests[backtest].scenario != scenario then Err(IntegrityViolation)
      else if exists r <- b.rules :: b.rules[r].backtest == backtest then Err(UniqueViolation)
      else Ok(Mutated(b.(rules := b.rules[rule := Rule(backtest, spec, scenario)]), 0, 1))
    case MAssign(task, expected, assignee) =>
      if !Addressed(b, task, expected, targets, scenario) then Err(SerializationFailure)
      else Ok(Touched(b, task, b.tasks[task].(assignee := Some(assignee))))
    case MTransition(task, expected, fromStatus, toStatus) =>
      if !Addressed(b, task, expected, targets, scenario) || b.tasks[task].status != fromStatus || !Allowed(fromStatus, toStatus)
      then Err(SerializationFailure)
      else Ok(Touched(b, task, b.tasks[task].(status := toStatus)))
    case MAddConclusion(task, expected, conclusion) =>
      if !Addressed(b, task, expected, targets, scenario) || b.tasks[task].status != Resolved then Err(SerializationFailure)
      else if conclusion in b.conclusions
         || exists c <- b.conclusions :: b.conclusions[c].task == task && b.conclusions[c].version == expected + 1
      then Err(UniqueViolation)
      else
        Ok(Touched(b.(conclusions := b.conclusions[conclusion := Conclusion(task, expected + 1, scenario)]), task, b.tasks[task]))
    case MClose(task, expected, conclusion, disposition) =>
      if !Addressed(b, task, expected, targets, scenario) || b.tasks[task].status != Resolved
         || conclusion !in b.conclusions || b.conclusions[conclusion].task != task || b.conclusions[conclusion].scenario != scenario
      then Err(SerializationFailure)
      else
        var linked := exists r <- b.risks :: b.risks[r].task == task;
        if linked && disposition.None? then Err(NotNullViolation)  // NULL NOT IN (...) is not true; the update fails
        else if linked && disposition.value == UnderInvestigation then Err(InvalidParameter)
        else if !linked && disposition.Some? then Err(InvalidParameter)
        else Ok(Touched(b.(risks := Disposed(b.risks, task, disposition)), task, b.tasks[task].(status := Closed)))
  }

  /** UPDATE ... WHERE task_ref = p_task_ref. */
  function Disposed(risks: map<nat, Risk>, task: nat, disposition: Option<RiskStatus>): map<nat, Risk> {
    map r | r in risks ::
      if risks[r].task == task && disposition.Some? then risks[r].(status := disposition.value, version := risks[r].version + 1)
      else risks[r]
  }

  // ---- the shell around every command ----

  datatype Call = Call(
    execution: nat, key: PKey, actor: nat, payload: nat, targetsSha: nat, nonce: nat, idempotency: string, scenario: string,
    mutation: Mutation)

  datatype Receipt = Receipt(execution: nat, before: nat, after: nat, committedAt: int)

  predicate Executed(c: Control, key: PKey) {
    exists e <- c.executions :: c.executions[e].key == key
  }

  /** The execution of a proposal version; unique once the invariant holds. */
  predicate IsExecutionOf(c: Control, e: nat, key: PKey) {
    e in c.executions && c.executions[e].key == key
  }

  /** The first part: an execution already there answers the call, or refuses it. */
  function Replay(c: Control, call: Call): Result<Receipt, SqlError> {
    if IsExecutionOf(c, call.execution, call.key) && c.executions[call.execution].actor == call.actor
       && c.executions[call.execution].idempotency == call.idempotency then
      var e := c.executions[call.execution];
      Ok(Receipt(call.execution, e.before, e.after, e.committedAt))
    else Err(IntegrityViolation)
  }

  predicate Authorised(c: Control, call: Call, now: int) {
    && call.key in c.proposals && call.key in c.decisions
    && var p, d := c.proposals[call.key], c.decisions[call.key];
       && p.status == Approved && p.command == TypeOf(call.mutation) && p.payload == call.payload
       && p.targetsSha == call.targetsSha && p.scenario == call.scenario && p.expires > now
       && d.approve && d.requester == p.requester && d.approver == call.actor
  }

  predicate Claimable(c: Control, call: Call, now: int) {
    && call.nonce in c.nonces
    && var n := c.nonces[call.nonce];
       && n.key == call.key && n.approver == call.actor && n.payload == call.payload && n.targetsSha == call.targetsSha
       && n.scenario == call.scenario && !n.used && n.expires > now
  }

  /** The rest of the transaction, from the authorisation to the audit event. */
  function Perform(db: Db, call: Call, now: int): Result<(Db, Receipt), SqlError> {
    var c := db.control;
    if call.key !in c.proposals then Err(NoData)
    else if !Authorised(c, call, now) then Err(NotAuthorised)
    else if call.execution in c.executions || Executed(c, call.key)
       || exists e <- c.executions :: c.executions[e].actor == call.actor && c.executions[e].idempotency == call.idempotency
    then Err(UniqueViolation)
    else if !Claimable(c, call, now) then Err(NotAuthorised)
    else
      var mutated := Mutate(db.business, call.mutation, c.proposals[call.key].targets, call.scenario);
      if mutated.Err? then Err(mutated.error)
      else if call.execution in db.trail.audits then Err(UniqueViolation)
      else
        var m := mutated.value;
        var execution := Execution(call.key, call.actor, TypeOf(call.mutation), call.idempotency, m.before, m.after, now, call.scenario);
        var audit := Audit(call.execution, call.key, m.before, m.after, call.scenario);
        Ok((Db(c.(nonces := c.nonces[call.nonce := c.nonces[call.nonce].(used := true)],
                  executions := c.executions[call.execution := execution]),
               m.business, db.trail.(audits := db.trail.audits[call.execution := audit])),
            Receipt(call.execution, m.before, m.after, now)))
  }

  function Execute(db: Db, call: Call, now: int): Result<(Db, Receipt), SqlError> {
    if Executed(db.control, call.key) then
      var replayed := Replay(db.control, call);
      if replayed.Err? then Err(replayed.error) else Ok((db, replayed.value))
    else Perform(db, call, now)
  }

  // ---- reset_product_scenario ----

  /** The eleven tables in the order their rows are deleted. */
  datatype Table =
    | AuditEvent | RiskAnnotation | InvestigationConclusion | MetricAlertRule | CommandExecution | ApprovalNonce
    | ApprovalDecision | OperationProposal | AlertBacktestResult | InvestigationTask | ProductTraceEvent

  const DELETE_ORDER := [AuditEvent, RiskAnnotation, InvestigationConclusion, MetricAlertRule, CommandExecution, ApprovalNonce,
    ApprovalDecision, OperationProposal, AlertBacktestResult, InvestigationTask, ProductTraceEvent]

  function KeptAudits(m: map<nat, Audit>, s: string): map<nat, Audit> {
    map a | a in m && m[a].scenario != s :: m[a]
  }

  function KeptRisks(m: map<nat, Risk>, s: string): map<nat, Risk> {
    map r | r in m && m[r].scenario != s :: m[r]
  }

  function KeptConclusions(m: map<string, Conclusion>, s: string): map<string, Conclusion> {
    map k | k in m && m[k].scenario != s :: m[k]
  }

  function KeptRules(m: map<nat, Rule>, s: string): map<nat, Rule> {
    map r | r in m && m[r].scenario != s :: m[r]
  }

  function KeptExecutions(m: map<nat, Execution>, s: string): map<nat, Execution> {
    map e | e in m && m[e].scenario != s :: m[e]
  }

  function KeptNonces(m: map<nat, Nonce>, s: string): map<nat, Nonce> {
    map n | n in m && m[n].scenario != s :: m[n]
  }

  function KeptDecisions(m: map<PKey, Decision>, s: string): map<PKey, Decision> {
    map k | k in m && m[k].scenario != s :: m[k]
  }

  function KeptProposals(m: map<PKey, Proposal>, s: string): map<PKey, Proposal> {
    map k | k in m && m[k].scenario != s :: m[k]
  }

  function KeptBacktests(m: map<nat, Backtest>, s: string): map<nat, Backtest> {
    map r | r in m && m[r].scenario != s :: m[r]
  }

  function KeptTasks(m: map<nat, Task>, s: string): map<nat, Task> {
    map t | t in m && m[t].scenario != s :: m[t]
  }

  function KeptTraces(m: map<nat, string>, s: string): map<nat, string> {
    map e | e in m && m[e] != s :: m[e]
  }

  /** DELETE FROM table WHERE scenario_id = s. */
  function Delete(db: Db, t: Table, s: string): Db {
    var c, b, l := db.control, db.business, db.trail;
    match t
    case AuditEvent => db.(trail := l.(audits := KeptAudits(l.audits, s)))
    case RiskAnnotation => db.(business := b.(risks := KeptRisks(b.risks, s)))
    case InvestigationConclusion => db.(business := b.(conclusions := KeptConclusions(b.conclusions, s)))
    case MetricAlertRule => db.(business := b.(rules := KeptRules(b.rules, s)))
    case CommandExecution => db.(control := c.(executions := KeptExecutions(c.executions, s)))
    case ApprovalNonce => db.(control := c.(nonces := KeptNonces(c.nonces, s)))
    case ApprovalDecision => db.(control := c.(decisions := KeptDecisions(c.decisions, s)))
    case OperationProposal => db.(control := c.(proposals := KeptProposals(c.proposals, s)))
    case AlertBacktestResult => db.(business := b.(backtests := KeptBacktests(b.backtests, s)))
    case InvestigationTask => db.(business := b.(tasks := KeptTasks(b.tasks, s)))
    case ProductTraceEvent => db.(trail := l.(traces := KeptTraces(l.traces, s)))
  }

  /** After the first `n` deletes. */
  function Deleted(db: Db, s: string, n: nat): Db
    requires n <= |DELETE_ORDER|
  {
    if n == 0 then db else Delete(Deleted(db, s, n - 1), DELETE_ORDER[n - 1], s)
  }

  function Reset(db: Db, s: string): Db {
    Deleted(db, s, |DELETE_ORDER|)
  }

  /** The database without the rows of one scenario, whatever the order they are deleted in. */
  function Without(db: Db, s: string): Db {
    Db(Control(KeptProposals(db.control.proposals, s), KeptDecisions(db.control.decisions, s),
         KeptNonces(db.control.nonces, s), KeptExecutions(db.control.executions, s)),
       Business(KeptTasks(db.business.tasks, s), KeptConclusions(db.business.conclusions, s), KeptRisks(db.business.risks, s),
         KeptBacktests(db.business.backtests, s), KeptRules(db.business.rules, s)),
       Trail(KeptAudits(db.trail.audits, s), KeptTraces(db.trail.traces, s)))
  }

  /** The tables deleted from after `n` deletes, all at once. */
  function Partial(db: Db, s: string, n: nat): Db {
    var c, b, l, w := db.control, db.business, db.trail, Without(db, s);
    Db(Control(if n > 7 then w.control.proposals else c.proposals, if n > 6 then w.control.decisions else c.decisions,
         if n > 5 then w.control.nonces else c.nonces, if n > 4 then w.control.executions else c.executions),
       Business(if n > 9 then w.business.tasks else b.tasks, if n > 2 then w.business.conclusions else b.conclusions,
         if n > 1 then w.business.risks else b.risks, if n > 8 then w.business.backtests else b.backtests,
         if n > 3 then w.business.rules else b.rules),
       Trail(if n > 0 then w.trail.audits else l.audits, if n > 10 then w.trail.traces else l.traces))
  }

  lemma {:induction false} DeletedIsPartial(db: Db, s: string, n: nat)
    requires n <= |DELETE_ORDER|
    ensures Deleted(db, s, n) == Partial(db, s, n)
  {
    hide KeptAudits, KeptRisks, KeptConclusions, KeptRules, KeptExecutions, KeptNonces, KeptDecisions, KeptProposals,
      KeptBacktests, KeptTasks, KeptTraces;
    if n > 0 {
      DeletedIsPartial(db, s, n - 1);
    }
  }

  // ---- append_audit_event, called on its own ----

  function AppendAudit(db: Db, event: nat, a: Audit): Result<Trail, SqlError> {
    if a.execution !in db.control.executions || a.key !in db.control.proposals then Err(IntegrityViolation)
    else
      var e := db.control.executions[a.execution];
      if e.key != a.key || e.before != a.before || e.after != a.after || e.scenario != a.scenario
         || db.control.proposals[a.key].scenario != a.scenario then Err(IntegrityViolation)
      else if exists x <- db.trail.audits :: db.trail.audits[x].execution == a.execution then Ok(db.trail)
      else if event in db.trail.audits then Err(UniqueViolation)
      else Ok(db.trail.(audits := db.trail.audits[event := a]))
  }

  // ---- runs ----

  datatype Event =
    | Create(args: ProposalArgs, now: int)
    | Record(decision: DecisionArgs, at: int)
    | Store(ref: nat, backtest: Backtest)
    | Command(call: Call, when: int)
    | Append(event: nat, audit: Audit)
    | Trace(id: nat, of: string)
    | ResetScenario(scenario: string)

  /** One transaction; an error rolls everything back. */
  function Next(db: Db, e: Event): Db {
    match e
    case Create(a, now) =>
      var r := CreateProposal(db.control, a, now); if r.Ok? then db.(control := r.value) else db
    case Record(a, at) =>
      var r := Decide(db.control, a, at); if r.Ok? then db.(control := r.value) else db
    case Store(ref, backtest) =>
      var r := StoreBacktest(db.business, ref, backtest); if r.Ok? then db.(business := r.value) else db
    case Command(call, when) =>
      var r := Execute(db, call, when); if r.Ok? then r.value.0 else db
    case Append(event, audit) =>
      var r := AppendAudit(db, event, audit); if r.Ok? then db.(trail := r.value) else db
    case Trace(id, of) => if id in db.trail.traces then db else db.(trail := db.trail.(traces := db.trail.traces[id := of]))
    case ResetScenario(s) => Reset(db, s)
  }

  predicate IsRun(states: seq<Db>, events: seq<Event>) {
    && |states| == |events| + 1 && states[0] == EMPTY
    && forall i | 0 <= i < |events| :: states[i + 1] == Next(states[i], events[i])
  }

  // ---- the functions, statement by statement ----

  class ProductDatabase {
    var control: Control
    var business: Business
    var trail: Trail

    function Contents(): Db
      reads this
    {
      Db(control, business, trail)
    }

    constructor ()
      ensures Contents() == EMPTY
    {
      control, business, trail := EMPTY.control, EMPTY.business, EMPTY.trail;
    }

    /** The revised version is superseded before the new one is inserted; an error puts it back. */
    method CreateOperationProposal(a: ProposalArgs, now: int) returns (r: Result<(), SqlError>)
      modifies `control
      ensures match CreateProposal(old(control), a, now)
        case Err(e) => r == Err(e) && control == old(control)
        case Ok(c) => r.Ok? && control == c
    {
      var before := control;
      if exists k <- control.proposals :: SameRequest(control.proposals[k], a) {
        if exists k <- control.proposals :: SameRequest(control.proposals[k], a) && !SamePayload(control.proposals[k], a) {
          return Err(UniqueViolation);
        }
        return Ok(());
      }
      if a.key.version > 1 {
        var previous := Before(a.key);
        if previous !in control.proposals || control.proposals[previous].requester != a.requester
           || control.proposals[previous].status != Pending {
          return Err(IntegrityViolation);
        }
        var superseded := control.proposals[previous].(status := Superseded);
        control := control.(proposals := control.proposals[previous := superseded]);
      } else if exists k <- control.proposals :: k.id == a.key.id {
        return Err(IntegrityViolation);
      }
      var inserted := Inserted(control.proposals, a, now);
      if inserted.Err? {
        control := before;
        return Err(inserted.error);
      }
      control := control.(proposals := inserted.value);
      return Ok(());
    }

    /** The nonce is claimed before the mutation; any later error rolls the claim back. */
    method ExecuteCommand(call: Call, now: int) returns (r: Result<Receipt, SqlError>)
      modifies this
      ensures match Execute(old(Contents()), call, now)
        case Err(e) => r == Err(e) && Contents() == old(Contents())
        case Ok(done) => r == Ok(done.1) && Contents() == done.0
    {
      if Executed(control, call.key) {
        return Replay(control, call);
      }
      r := PerformCommand(call, now);
    }

    method PerformCommand(call: Call, now: int) returns (r: Result<Receipt, SqlError>)
      modifies this
      ensures match Perform(old(Contents()), call, now)
        case Err(e) => r == Err(e) && Contents() == old(Contents())
        case Ok(done) => r == Ok(done.1) && Contents() == done.0
    {
      var before := control;
      if call.key !in control.proposals {
        return Err(NoData);
      }
      if !Authorised(control, call, now) {
        return Err(NotAuthorised);
      }
      if call.execution in control.executions || Executed(control, call.key)
         || exists e <- control.executions ::
              control.executions[e].actor == call.actor && control.executions[e].idempotency == call.idempotency {
        return Err(UniqueViolation);
      }
      if !Claimable(control, call, now) {
        return Err(NotAuthorised);
      }
      control := control.(nonces := control.nonces[call.nonce := control.nonces[call.nonce].(used := true)]);
      var mutated := Mutate(business, call.mutation, control.proposals[call.key].targets, call.scenario);
      if mutated.Err? {
        control := before;
        return Err(mutated.error);
      }
      if call.execution in trail.audits {
        control := before;
        return Err(UniqueViolation);
      }
      var m := mutated.value;
      business := m.business;
      control := control.(executions := control.executions[call.execution :=
        Execution(call.key, call.actor, TypeOf(call.mutation), call.idempotency, m.before, m.after, now, call.scenario)]);
      trail := trail.(audits := trail.audits[call.execution := Audit(call.execution, call.key, m.before, m.after, call.scenario)]);
      return Ok(Receipt(call.execution, m.before, m.after, now));
    }

    method DeleteRows(t: Table, s: string)
      modifies this
      ensures Contents() == Delete(old(Contents()), t, s)
    {
      match t
      case AuditEvent => trail := trail.(audits := KeptAudits(trail.audits, s));
      case RiskAnnotation => business := business.(risks := KeptRisks(business.risks, s));
      case InvestigationConclusion => business := business.(conclusions := KeptConclusions(business.conclusions, s));
      case MetricAlertRule => business := business.(rules := KeptRules(business.rules, s));
      case CommandExecution => control := control.(executions := KeptExecutions(control.executions, s));
      case ApprovalNonce => control := control.(nonces := KeptNonces(control.nonces, s));
      case ApprovalDecision => control := control.(decisions := KeptDecisions(control.decisions, s));
      case OperationProposal => control := control.(proposals := KeptProposals(control.proposals, s));
      case AlertBacktestResult => business := business.(backtests := KeptBacktests(business.backtests, s));
      case InvestigationTask => business := business.(tasks := KeptTasks(business.tasks, s));
      case ProductTraceEvent => trail := trail.(traces := KeptTraces(trail.traces, s));
    }

    /** The deletes of a reset, in order. */
    method ResetProductScenario(s: string)
      modifies this
      ensures Contents() == Without(old(Contents()), s)
    {
      ghost var before := Contents();
      var n := 0;
      while n < |DELETE_ORDER|
        invariant n <= |DELETE_ORDER| && Contents() == Deleted(before, s, n)
      {
        DeleteRows(DELETE_ORDER[n], s);
        n := n + 1;
      }
      DeletedIsPartial(before, s, n);
    }
  }
}
