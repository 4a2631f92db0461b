/** What the business rows are, told from the committed command calls in order. */
module ProductSqlEffects {
  import opened Common
  import opened ProductSql
  import opened ProductSqlInvariants
  import opened ProductSqlSafety
  import opened ProductSqlApproval

  // ---- what a call can settle ----

  datatype Aspect =
    | TaskStatusOf(task: nat) | TaskAssigneeOf(task: nat) | TaskVersionOf(task: nat) | TaskScenarioOf(task: nat)
    | RiskOf(risk: nat, task: nat) | ConclusionNamed(name: string) | RuleOf(rule: nat)

  function TaskOf(m: Mutation): Option<nat> {
    match m
    case MOpenRisk(task, _) => Some(task)
    case MCreateTask(task) => Some(task)
    case MFromAlertHit(task, _, _) => Some(task)
    case MCreateRule(_, _, _) => None
    case MAssign(task, _, _) => Some(task)
    case MTransition(task, _, _, _) => Some(task)
    case MAddConclusion(task, _, _) => Some(task)
    case MClose(task, _, _, _) => Some(task)
  }

  predicate Creates(m: Mutation) {
    m.MOpenRisk? || m.MCreateTask? || m.MFromAlertHit?
  }

  predicate Settles(m: Mutation, a: Aspect) {
    match a
    case TaskStatusOf(t) => TaskOf(m) == Some(t) && (Creates(m) || m.MTransition? || m.MClose?)
    case TaskAssigneeOf(t) => TaskOf(m) == Some(t) && (Creates(m) || m.MAssign?)
    case TaskVersionOf(t) => TaskOf(m) == Some(t)
    case TaskScenarioOf(t) => TaskOf(m) == Some(t) && Creates(m)
    case RiskOf(r, t) => (m.MOpenRisk? && m.risk == r) || (m.MClose? && m.task == t)
    case ConclusionNamed(name) => m.MAddConclusion? && m.conclusion == name
    case RuleOf(r) => m.MCreateRule? && m.rule == r
  }

  /** The version a mutation finds, and leaves one higher. */
  function VersionBefore(m: Mutation): nat {
    if m.MAssign? || m.MTransition? || m.MAddConclusion? || m.MClose? then m.expected else 0
  }

  // ---- what rows say ----

  predicate StatusSays(c: Call, row: Task) {
    && (Creates(c.mutation) ==> row.status == Open)
    && (c.mutation.MTransition? ==> row.status == c.mutation.toStatus)
    && (c.mutation.MClose? ==> row.status == Closed)
  }

  predicate AssigneeSays(c: Call, row: Task) {
    row.assignee == if c.mutation.MAssign? then Some(c.mutation.assignee) else None
  }

  predicate RiskSays(c: Call, row: Risk) {
    if c.mutation.MOpenRisk? then row == Risk(c.mutation.task, UnderInvestigation, 1, c.scenario)
    else
      && c.mutation.MClose? && row.task == c.mutation.task && row.version == 2
      && c.mutation.disposition == Some(row.status) && row.status != UnderInvestigation
  }

  /** The row an aspect speaks of, if it is there, is as the call says. */
  predicate Says(b: Business, a: Aspect, last: Option<Call>) {
    match a
    case TaskStatusOf(t) => t in b.tasks ==> last.Some? && StatusSays(last.value, b.tasks[t])
    case TaskAssigneeOf(t) => t in b.tasks ==> last.Some? && AssigneeSays(last.value, b.tasks[t])
    case TaskVersionOf(t) => t in b.tasks ==> last.Some? && b.tasks[t].version == VersionBefore(last.value.mutation) + 1
    case TaskScenarioOf(t) => t in b.tasks ==> last.Some? && b.tasks[t].scenario == last.value.scenario
    case RiskOf(r, t) => r in b.risks && b.risks[r].task == t ==> last.Some? && RiskSays(last.value, b.risks[r])
    case ConclusionNamed(name) => name in b.conclusions ==>
      last.Some? && last.value.mutation.MAddConclusion?
      && b.conclusions[name] == Conclusion(last.value.mutation.task, last.value.mutation.expected + 1, last.value.scenario)
    case RuleOf(r) => r in b.rules ==>
      last.Some? && last.value.mutation.MCreateRule?
      && b.rules[r] == Rule(last.value.mutation.backtest, last.value.mutation.spec, last.value.scenario)
  }

  // ---- one mutation ----

  /** The task a mutation addresses, and no other, has another row after it. */
  lemma TaskAfter(b: Business, m: Mutation, targets: Targets, scenario: string, t: nat)
    requires Mutate(b, m, targets, scenario).Ok?
    ensures var d := Mutate(b, m, targets, scenario).value.business;
      if TaskOf(m) != Some(t) then (t in d.tasks <==> t in b.tasks) && (t in b.tasks ==> d.tasks[t] == b.tasks[t])
      else t in d.tasks && (!Creates(m) ==> t in b.tasks && b.tasks[t].version == VersionBefore(m))
  {
  }

  lemma TouchedTaskSays(b: Business, c: Call, targets: Targets, t: nat)
    requires Mutate(b, c.mutation, targets, c.scenario).Ok? && TaskOf(c.mutation) == Some(t)
    ensures var d := Mutate(b, c.mutation, targets, c.scenario).value.business;
      && t in d.tasks && StatusSays(c, d.tasks[t]) && d.tasks[t].version == VersionBefore(c.mutation) + 1
      && (Creates(c.mutation) || c.mutation.MAssign? ==> AssigneeSays(c, d.tasks[t]))
      && (Creates(c.mutation) ==> d.tasks[t].scenario == c.scenario)
      && (!Creates(c.mutation) ==> t in b.tasks && d.tasks[t].scenario == b.tasks[t].scenario)
      && (!Creates(c.mutation) && !c.mutation.MAssign? ==> d.tasks[t].assignee == b.tasks[t].assignee)
      && (c.mutation.MAssign? || c.mutation.MAddConclusion? ==> d.tasks[t].status == b.tasks[t].status)
  {
  }

  lemma MutateSaysTask(b: Business, c: Call, targets: Targets, a: Aspect, last: Option<Call>)
    requires Mutate(b, c.mutation, targets, c.scenario).Ok? && Says(b, a, last)
    requires a.TaskStatusOf? || a.TaskAssigneeOf? || a.TaskVersionOf? || a.TaskScenarioOf?
    ensures Says(Mutate(b, c.mutation, targets, c.scenario).value.business, a, if Settles(c.mutation, a) then Some(c) else last)
  {
    TaskAfter(b, c.mutation, targets, c.scenario, a.task);
    if TaskOf(c.mutation) == Some(a.task) {
      TouchedTaskSays(b, c, targets, a.task);
    }
    hide Mutate, StatusSays, AssigneeSays;
  }

  lemma MutateSaysName(b: Business, c: Call, targets: Targets, a: Aspect, last: Option<Call>)
    requires Mutate(b, c.mutation, targets, c.scenario).Ok? && Says(b, a, last)
    requires a.ConclusionNamed? || a.RuleOf?
    ensures Says(Mutate(b, c.mutation, targets, c.scenario).value.business, a, if Settles(c.mutation, a) then Some(c) else last)
  {
  }

  lemma MutateSaysRisk(b: Business, c: Call, targets: Targets, a: Aspect, last: Option<Call>)
    requires BusinessInv(b) && Mutate(b, c.mutation, targets, c.scenario).Ok? && Says(b, a, last) && a.RiskOf?
    ensures Says(Mutate(b, c.mutation, targets, c.scenario).value.business, a, if Settles(c.mutation, a) then Some(c) else last)
  {
    hide ConclusionsCoupled, ConclusionsRef, RulesRef;
  }

  lemma MutateVersions(b: Business, m: Mutation, targets: Targets, scenario: string)
    requires Mutate(b, m, targets, scenario).Ok?
    ensures var done := Mutate(b, m, targets, scenario).value;
      done.before == VersionBefore(m) && done.after == VersionBefore(m) + 1
  {
  }

  // ---- runs ----

  /** Transaction `m` committed its call. */
  predicate Committed(states: seq<Db>, events: seq<Event>, m: nat) {
    m < |events| && events[m].Command? && Commits(states, events, m, events[m].call)
  }

  /** The last committed call before state `i` that settled the aspect. */
  function Last(states: seq<Db>, events: seq<Event>, i: nat, a: Aspect): (last: Option<Call>)
    requires |states| == |events| + 1 && i < |states|
  {
    if i == 0 then None
    else if Committed(states, events, i - 1) && Settles(events[i - 1].call.mutation, a) then Some(events[i - 1].call)
    else Last(states, events, i - 1, a)
  }

  lemma ResetSays(db: Db, s: string, a: Aspect, last: Option<Call>)
    requires Says(db.business, a, last)
    ensures Says(Reset(db, s).business, a, last)
  {
    ResetIsExact(db, s);
    hide Reset;
  }

  lemma StoreSays(b: Business, ref: nat, t: Backtest, a: Aspect, last: Option<Call>)
    requires StoreBacktest(b, ref, t).Ok? && Says(b, a, last)
    ensures Says(StoreBacktest(b, ref, t).value, a, last)
  {
  }

  lemma CommitSays(db: Db, c: Call, now: int, a: Aspect, last: Option<Call>)
    requires Inv(db) && Says(db.business, a, last) && Perform(db, c, now).Ok?
    ensures Says(Perform(db, c, now).value.0.business, a, if Settles(c.mutation, a) then Some(c) else last)
  {
    PerformPerforms(db, c, now);
    var targets := db.control.proposals[c.key].targets;
    hide Perform, Mutate, Says, Settles, Inv, PerformsOne;
    if a.ConclusionNamed? || a.RuleOf? {
      MutateSaysName(db.business, c, targets, a, last);
    } else if a.RiskOf? {
      assert Inv(db) ==> BusinessInv(db.business) by {
        InvBusiness(db);
      }
      MutateSaysRisk(db.business, c, targets, a, last);
    } else {
      MutateSaysTask(db.business, c, targets, a, last);
    }
  }

  lemma InvBusiness(db: Db)
    ensures Inv(db) ==> BusinessInv(db.business)
  {
    hide BusinessInv, RefInv, ControlInv, Audited;
  }

  /** A command transaction that commits nothing new leaves the business rows alone. */
  lemma UncommittedKeeps(states: seq<Db>, events: seq<Event>, m: nat)
    requires IsRun(states, events) && m < |events| && events[m].Command? && !Committed(states, events, m)
    ensures states[m + 1] == states[m]
  {
    assert states[m + 1] == Next(states[m], events[m]);
    var db, c := states[m], events[m].call;
    if Perform(db, c, events[m].when).Ok? {
      PerformMakes(db, c, events[m].when);
    }
    hide Perform, Presents, KeepsApprovals, Executed, Replay;
  }

  lemma OtherEventSays(db: Db, e: Event, a: Aspect, last: Option<Call>)
    requires !e.Command? && Says(db.business, a, last)
    ensures Says(Next(db, e).business, a, last)
  {
    hide CreateProposal, Decide, AppendAudit, Says, Reset, StoreBacktest;
    if e.Store? {
      if StoreBacktest(db.business, e.ref, e.backtest).Ok? {
        StoreSays(db.business, e.ref, e.backtest, a, last);
      }
    } else if e.ResetScenario? {
      ResetSays(db, e.scenario, a, last);
    }
  }

  /** In every reachable state each business row is as the committed calls say: a task has the status of the last
      transition, closing or creation, the assignee of the last assignment, the version after the last call on
      it; a risk is final with the disposition its closing named; conclusions and rules are as they were added. */
  lemma {:induction false} RowsAreTold(states: seq<Db>, events: seq<Event>, i: nat, a: Aspect)
    requires IsRun(states, events) && i < |states|
    ensures Says(states[i].business, a, Last(states, events, i, a))
  {
    hide Next, Says, Settles, Inv;
    if i == 0 {
      NothingSaid(a);
    } else {
      RowsAreTold(states, events, i - 1, a);
      var db, e, last := states[i - 1], events[i - 1], Last(states, events, i - 1, a);
      assert states[i - 1 + 1] == Next(db, e);
      if !e.Command? {
        OtherEventSays(db, e, a, last);
      } else if Committed(states, events, i - 1) {
        RunInv(states, events, i - 1);
        CommitPresents(states, events, i - 1, e.call);
        CommitSays(db, e.call, e.when, a, last);
      } else {
        UncommittedKeeps(states, events, i - 1);
      }
    }
  }

  lemma NothingSaid(a: Aspect)
    ensures Says(EMPTY.business, a, None)
  {
  }

  /** An execution carries the versions its call took its target between, and the scenario of the call. */
  lemma ExecutionVersions(states: seq<Db>, events: seq<Event>, m: nat, call: Call)
    requires IsRun(states, events) && Commits(states, events, m, call)
    ensures call.execution in states[m + 1].control.executions
    ensures var x := states[m + 1].control.executions[call.execution];
      x.before == VersionBefore(call.mutation) && x.after == VersionBefore(call.mutation) + 1 && x.scenario == call.scenario
  {
    CommitPresents(states, events, m, call);
    PerformVersions(states[m], call, events[m].when);
  }

  lemma PerformVersions(db: Db, call: Call, now: int)
    requires Perform(db, call, now).Ok?
    ensures var d := Perform(db, call, now).value.0.control;
      && call.execution in d.executions
      && var x := d.executions[call.execution];
         x.before == VersionBefore(call.mutation) && x.after == VersionBefore(call.mutation) + 1 && x.scenario == call.scenario
  {
    PerformPerforms(db, call, now);
    MutateVersions(db.business, call.mutation, db.control.proposals[call.key].targets, call.scenario);
    hide Mutate, PerformsOne, Authorised, Claimable, Executed;
  }

  // ---- which commands fit ----

  predicate TaskAtVersion(b: Business, task: nat, expected: nat, targets: Targets, scenario: string) {
    && task in b.tasks && b.tasks[task].scenario == scenario && b.tasks[task].version == expected
    && targets == TaskAt(expected)
  }

  predicate Linked(b: Business, task: nat) {
    exists r <- b.risks :: b.risks[r].task == task
  }

  /** The row stands between two statuses of the transition table. */
  predicate MayMove(a: TaskStatus, z: TaskStatus) {
    (a, z) in {(Open, InProgress), (Open, Blocked), (InProgress, Blocked), (InProgress, Resolved), (Blocked, InProgress),
      (Blocked, Resolved)}
  }

  /** What the rows must be for a mutation to be carried out. */
  predicate Fits(b: Business, m: Mutation, targets: Targets, scenario: string) {
    match m
    case MOpenRisk(task, risk) => targets == TaskAndRisk && task !in b.tasks && risk !in b.risks
    case MCreateTask(task) => targets == TaskAt(0) && task !in b.tasks
    case MFromAlertHit(task, rule, start) =>
      && targets == TaskAt(0) && task !in b.tasks && rule in b.rules && b.rules[rule].scenario == scenario
      && b.rules[rule].backtest in b.backtests && start in b.backtests[b.rules[rule].backtest].hits
    case MCreateRule(rule, backtest, spec) =>
      && targets == NewRule && rule !in b.rules && backtest in b.backtests && b.backtests[backtest].spec == spec
      && b.backtests[backtest].scenario == scenario && forall r <- b.rules :: b.rules[r].backtest != backtest
    case MAssign(task, expected, _) => TaskAtVersion(b, task, expected, targets, scenario)
    case MTransition(task, expected, from, to) =>
      TaskAtVersion(b, task, expected, targets, scenario) && b.tasks[task].status == from && MayMove(from, to)
    case MAddConclusion(task, expected, name) =>
      && TaskAtVersion(b, task, expected, targets, scenario) && b.tasks[task].status == Resolved && name !in b.conclusions
      && forall c <- b.conclusions :: !(b.conclusions[c].task == task && b.conclusions[c].version == expected + 1)
    case MClose(task, expected, name, disposition) =>
      && TaskAtVersion(b, task, expected, targets, scenario) && b.tasks[task].status == Resolved
      && name in b.conclusions && b.conclusions[name].task == task && b.conclusions[name].scenario == scenario
      && (if Linked(b, task) then disposition.Some? && disposition.value != UnderInvestigation else disposition.None?)
  }

  /** A mutation is carried out exactly where it fits. */
  lemma MutatesExactly(b: Business, m: Mutation, targets: Targets, scenario: string)
    ensures Mutate(b, m, targets, scenario).Ok? <==> Fits(b, m, targets, scenario)
  {
  }

  /** Every committed call of a run fitted the rows it found, under the target versions that were approved. */
  lemma CommittedCallsFit(states: seq<Db>, events: seq<Event>, m: nat, call: Call)
    requires IsRun(states, events) && Commits(states, events, m, call)
    ensures call.key in states[m].control.proposals
    ensures Fits(states[m].business, call.mutation, states[m].control.proposals[call.key].targets, call.scenario)
  {
    CommitPresents(states, events, m, call);
    PerformPerforms(states[m], call, events[m].when);
    MutatesExactly(states[m].business, call.mutation, states[m].control.proposals[call.key].targets, call.scenario);
    hide Mutate, Fits, Perform, PerformsOne;
  }

  // ---- which proposals, decisions and backtests are accepted ----

  /** A new version may be filed: the first of an unused id, or the next of the same requester's pending one,
      with a seller and matching evidence for a risk case only, before its expiry. */
  predicate MayFile(c: Control, a: ProposalArgs, now: int) {
    && a.key.version >= 1 && now < a.expires
    && (if a.command == OpenRisk then a.seller.Some? && a.evidenceMatches else a.seller.None?)
    && (if a.key.version == 1 then forall k <- c.proposals :: k.id != a.key.id
        else
          && Before(a.key) in c.proposals && c.proposals[Before(a.key)].status == Pending
          && c.proposals[Before(a.key)].requester == a.requester)
  }

  predicate Repeated(c: Control, a: ProposalArgs) {
    exists k <- c.proposals :: c.proposals[k].requester == a.requester && c.proposals[k].idempotency == a.idempotency
  }

  /** The row of a filed version. */
  predicate FiledAs(p: Proposal, a: ProposalArgs) {
    && p.requester == a.requester && p.command == a.command && p.payload == a.payload && p.targets == a.targets
    && p.targetsSha == a.targetsSha && p.expires == a.expires && p.idempotency == a.idempotency && p.seller == a.seller
    && p.scenario == a.scenario
  }

  /** A repeated request is answered, and changes nothing, exactly if what it asks is what was filed; a new one
      is filed exactly if it may be, as it asks, pending, with the version before it superseded. */
  lemma FilesExactly(c: Control, a: ProposalArgs, now: int)
    requires Numbered(c) && LiveLast(c) && OnePerRequest(c)
    ensures Repeated(c, a) ==> forall k <- c.proposals | c.proposals[k].requester == a.requester && c.proposals[k].idempotency == a.idempotency ::
      && (CreateProposal(c, a, now).Ok? <==>
           c.proposals[k].command == a.command && c.proposals[k].payload == a.payload && c.proposals[k].seller == a.seller)
      && (CreateProposal(c, a, now).Ok? ==> CreateProposal(c, a, now).value == c)
    ensures !Repeated(c, a) ==> (CreateProposal(c, a, now).Ok? <==> MayFile(c, a, now))
    ensures !Repeated(c, a) && MayFile(c, a, now) ==>
      var d := CreateProposal(c, a, now).value;
      && a.key in d.proposals && FiledAs(d.proposals[a.key], a) && d.proposals[a.key].status == Pending
      && d.proposals.Keys == c.proposals.Keys + {a.key}
      && (forall k <- c.proposals :: d.proposals[k].status ==
            if a.key.version > 1 && k == Before(a.key) then Superseded else c.proposals[k].status)
  {
    if Repeated(c, a) {
      RepeatsOne(c, a);
    } else {
      assert forall k <- c.proposals :: !SameRequest(c.proposals[k], a);
      if MayFile(c, a, now) {
        NewIsAbove(c, a);
      }
    }
  }

  lemma RepeatsOne(c: Control, a: ProposalArgs)
    requires OnePerRequest(c)
    ensures forall j, k | j in c.proposals && k in c.proposals && SameRequest(c.proposals[j], a) && SameRequest(c.proposals[k], a) :: j == k
  {
    forall j, k | j in c.proposals && k in c.proposals && SameRequest(c.proposals[j], a) && SameRequest(c.proposals[k], a)
      ensures j == k
    {
      assert SameKey(c.proposals[j], c.proposals[k]);
    }
  }

  lemma NewIsAbove(c: Control, a: ProposalArgs)
    requires Numbered(c) && LiveLast(c) && a.key.version >= 1
    requires a.key.version > 1 ==> Before(a.key) in c.proposals && c.proposals[Before(a.key)].status == Pending
    requires a.key.version == 1 ==> forall k <- c.proposals :: k.id != a.key.id
    ensures a.key !in c.proposals
    ensures forall k <- c.proposals :: k.id == a.key.id && k != Before(a.key) ==> !Live(c.proposals[k])
  {
    if a.key.version > 1 {
      var prior := Before(a.key);
      assert a.key in c.proposals ==> Below(prior, a.key);
      forall k <- c.proposals | k.id == a.key.id && k != prior
        ensures !Live(c.proposals[k])
      {
        assert k.version < prior.version ==> Below(k, prior);
        assert k.version > prior.version ==> Below(prior, k);
      }
    }
  }

  /** A version may be decided: pending and unexpired, by another actor than the requester it names, for the
      payload, target versions and scenario on record; an approval brings an unused nonce for a grant that
      expires in time, a rejection none. */
  predicate MayDecide(c: Control, a: DecisionArgs, now: int) {
    && a.key in c.proposals
    && var p := c.proposals[a.key];
       && p.status == Pending && p.requester == a.requester && p.payload == a.payload && p.targetsSha == a.targetsSha
       && p.scenario == a.scenario && now < p.expires && a.approver != a.requester
       && (if a.approve then a.nonce.Some? && now < a.grantExpires <= p.expires && a.nonce.value !in c.nonces else a.nonce.None?)
  }

  lemma DecidesExactly(c: Control, a: DecisionArgs, now: int)
    requires Decided(c) && NoncesRef(c) && DecisionsRef(c)
    ensures Decide(c, a, now).Ok? <==> MayDecide(c, a, now)
    ensures MayDecide(c, a, now) ==>
      var d := Decide(c, a, now).value;
      && d.decisions == c.decisions[a.key := Decision(a.approve, a.requester, a.approver, a.scenario)]
      && d.proposals == c.proposals[a.key := c.proposals[a.key].(status := if a.approve then Approved else Rejected)]
      && d.executions == c.executions
      && (if a.approve then
            a.nonce.Some? && d.nonces == c.nonces[a.nonce.value :=
              Nonce(a.key, a.approver, a.payload, a.targetsSha, a.grantExpires, false, a.scenario)]
          else d.nonces == c.nonces)
  {
  }

  /** A backtest is stored once under its reference and once for a rule specification of a scenario, and never
      replaced. */
  lemma StoresExactly(b: Business, ref: nat, t: Backtest)
    ensures StoreBacktest(b, ref, t).Ok? <==>
      if ref in b.backtests then b.backtests[ref] == t
      else forall r <- b.backtests :: !(b.backtests[r].spec == t.spec && b.backtests[r].scenario == t.scenario)
    ensures StoreBacktest(b, ref, t).Ok? ==>
      var d := StoreBacktest(b, ref, t).value;
      && ref in d.backtests && d.backtests[ref] == t && d.backtests.Keys == b.backtests.Keys + {ref}
      && (forall r <- b.backtests :: d.backtests[r] == b.backtests[r])
  {
  }

  /** Backtest references keep what was stored under them, and a rule is of the backtest it was made from. */
  predicate RulesMatch(b: Business) {
    && (forall r <- b.rules :: b.rules[r].backtest in b.backtests && b.backtests[b.rules[r].backtest].spec == b.rules[r].spec)
    && (forall q, r | q in b.rules && r in b.rules :: b.rules[q].backtest == b.rules[r].backtest ==> q == r)
    && (forall q, r | q in b.backtests && r in b.backtests ::
          b.backtests[q].spec == b.backtests[r].spec && b.backtests[q].scenario == b.backtests[r].scenario ==> q == r)
  }

  lemma MutateKeepsRulesMatch(b: Business, m: Mutation, targets: Targets, scenario: string)
    requires RulesMatch(b) && Mutate(b, m, targets, scenario).Ok?
    ensures RulesMatch(Mutate(b, m, targets, scenario).value.business)
  {
  }

  lemma CommandKeepsRulesMatch(db: Db, call: Call, when: int)
    requires RulesMatch(db.business)
    ensures RulesMatch(Next(db, Command(call, when)).business)
  {
    hide Mutate, Perform, PerformsOne, Executed, Replay, RulesMatch;
    if Perform(db, call, when).Ok? {
      PerformPerforms(db, call, when);
      MutateKeepsRulesMatch(db.business, call.mutation, db.control.proposals[call.key].targets, call.scenario);
    }
  }

  lemma ResetKeepsRulesMatch(db: Db, s: string)
    requires RulesRef(db.business) && RulesMatch(db.business)
    ensures RulesMatch(Reset(db, s).business)
  {
    ResetIsExact(db, s);
    hide Reset;
  }

  lemma StepKeepsRulesMatch(db: Db, e: Event)
    requires Inv(db) && RulesMatch(db.business)
    ensures RulesMatch(Next(db, e).business)
  {
    assert RulesRef(db.business);
    hide Inv, CreateProposal, Decide, AppendAudit, Execute, Reset, RulesRef;
    match e {
      case Command(call, when) =>
        hide RulesMatch;
        CommandKeepsRulesMatch(db, call, when);
      case ResetScenario(s) =>
        hide RulesMatch;
        ResetKeepsRulesMatch(db, s);
      case Store(ref, t) => StoresExactly(db.business, ref, t);
      case _ => hide RulesMatch;
    }
  }

  /** In every reachable state a rule names a stored backtest of its own specification, no two rules share a
      backtest, and no two backtests of a scenario a specification. */
  lemma {:induction false} RulesAreMatched(states: seq<Db>, events: seq<Event>, i: nat)
    requires IsRun(states, events) && i < |states|
    ensures RulesMatch(states[i].business)
  {
    hide Inv, Next;
    if i > 0 {
      hide RulesMatch;
      RulesAreMatched(states, events, i - 1);
      RunInv(states, events, i - 1);
      StepKeepsRulesMatch(states[i - 1], events[i - 1]);
      assert states[i - 1 + 1] == Next(states[i - 1], events[i - 1]);
    }
  }
}
