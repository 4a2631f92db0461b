/** Safety over whole runs of the operation workflow: exactly-once execution, unbroken version
    chains, task and risk life cycles, one live proposal version. */
module OperationSafety {
  import opened Common
  import opened Operations
  import opened OperationStore
  import opened OperationWorkflow
  import opened OperationInvariants

  // ---- what a call may rely on between its steps ----

  /** The proposal a call has read is still on file with the same command. */
  predicate OnFile(l: Ledger, p: Proposal) {
    p.ref in l.proposals && l.proposals[p.ref].command == p.command && p.command.Valid()
  }

  predicate CallInv(l: Ledger, j: Journal, c: Call) {
    match c
    case Proposing(d) => d.command.Valid()
    case Deciding(r, approval) =>
      r.ref in l.proposals && r.approver != l.proposals[r.ref].requester && WellIssued(r, approval)
    case AwaitingDecision(_, grant, p) => OnFile(l, p) && grant.ref == p.ref
    case AwaitingExecution(actor, grant, p, d) =>
      && OnFile(l, p) && grant.ref == p.ref
      && p.ref in l.decisions && l.decisions[p.ref] == d
      && d.receipt.status == Approved && d.approval.Some? && d.receipt.grant.Some?
    case Executing(grant, p, verified) =>
      OnFile(l, p) && Executable(l, p, verified) && l.decisions[p.ref].receipt.grant == Some(grant)
    case ProposalReturned(p) => p.ref in l.proposals
    case DecisionReturned(r) => r.ref in l.decisions && l.decisions[r.ref].receipt == r
    case ReceiptReturned(grant, r) =>
      && r.ref in j.executions && j.executions[r.ref] == r
      && r.ref in l.decisions && l.decisions[r.ref].receipt.grant == Some(grant)
    case Raised(_) => true
    case Lost => true
  }

  ghost predicate CommandsValid(l: Ledger) {
    forall r <- l.proposals :: l.proposals[r].command.Valid()
  }

  ghost predicate SystemInv(initial: map<Uuid, Task>, y: System) {
    && TablesInv(initial, y.tables)
    && CommandsValid(y.tables.ledger)
    && forall id <- y.calls :: CallInv(y.tables.ledger, y.tables.journal, y.calls[id])
  }

  // ---- how the tables may move ----

  /** Executions are never lost, changed or reordered. */
  ghost predicate JournalGrows(j: Journal, j': Journal) {
    && (forall r <- j.executions :: r in j'.executions && j'.executions[r] == j.executions[r])
    && j.order <= j'.order
  }

  /** Tasks are never lost, their versions never fall, a resolved task can only close, a closed one
      stays closed, and a risk link never changes. */
  predicate TaskMoves(a: Task, b: Task) {
    && a.version <= b.version
    && a.risk == b.risk
    && (a.status == Resolved ==> b.status == Resolved || b.status == Closed)
    && (a.status == Closed ==> b.status == Closed)
  }

  ghost predicate TargetsMove(g: Targets, g': Targets) {
    && (forall k <- g.tasks :: k in g'.tasks && TaskMoves(g.tasks[k], g'.tasks[k]))
    && g.risks.Keys <= g'.risks.Keys
    && (forall k <- g.rules :: k in g'.rules && g'.rules[k] == g.rules[k])
  }

  ghost predicate TablesMove(t: Tables, t': Tables) {
    Grows(t.ledger, t'.ledger) && JournalGrows(t.journal, t'.journal) && TargetsMove(t.targets, t'.targets)
  }

  lemma TablesMoveTransitive(a: Tables, b: Tables, c: Tables)
    requires TablesMove(a, b) && TablesMove(b, c)
    ensures TablesMove(a, c)
  {
    GrowsTransitive(a.ledger, b.ledger, c.ledger);
    assert forall k <- a.targets.tasks :: k in b.targets.tasks;
    assert forall k <- a.targets.risks :: k in b.targets.risks;
    assert forall k <- a.targets.rules :: k in b.targets.rules;
    assert forall r <- a.journal.executions :: r in b.journal.executions;
  }

  lemma CallInvStable(l: Ledger, j: Journal, l': Ledger, j': Journal, c: Call)
    requires CallInv(l, j, c) && Grows(l, l') && JournalGrows(j, j')
    ensures CallInv(l', j', c)
  {
  }

  lemma ApplyMovesTargets(j: Journal, g: Targets, c: Command, ref: ProposalRef)
    requires Derived(j, g) && ref !in j.executions && c.Valid() && ApplyCommand(g, c, ref).Ok?
    ensures TargetsMove(g, ApplyCommand(g, c, ref).value.targets)
  {
    if c.Existing() {
      UpdateMovesTargets(g, c, ref);
    } else {
      CreatedIdentitiesAreNew(j, g, ref);
      hide Derived, ApplyToTask;
    }
  }

  lemma UpdateMovesTargets(g: Targets, c: Command, ref: ProposalRef)
    requires c.Valid() && c.Existing() && ApplyCommand(g, c, ref).Ok?
    ensures TargetsMove(g, ApplyCommand(g, c, ref).value.targets)
  {
    hide ApplyCreation;
  }

  lemma ExecuteMoves(t: Tables, p: Proposal, approval: Approval, now: int)
    requires Derived(t.journal, t.targets) && p.command.Valid()
    ensures TablesMove(t, Execute(t, p, approval, now).0)
  {
    if p.ref !in t.journal.executions && ApplyCommand(t.targets, p.command, p.ref).Ok? {
      ApplyMovesTargets(t.journal, t.targets, p.command, p.ref);
    }
  }

  /** A verified grant is the very grant issued with the approval. */
  lemma VerifiedGrantIsIssued(g: Grant, d: Decision, approval: Approval, actor: ActorId, now: int)
    requires WellIssued(d, Some(approval)) && VerifyGrant(g, approval, actor, now).Ok?
    ensures d.grant == Some(g)
  {
  }

  // ---- one step ----

  /** The three committing steps keep the tables' invariant and only move them forward. */
  lemma TablesStep(initial: map<Uuid, Task>, y: System, e: Event)
    requires WellFormedTasks(initial) && SystemInv(initial, y) && Enabled(y, e)
    ensures TablesInv(initial, NextTables(y, e)) && TablesMove(y.tables, NextTables(y, e))
  {
    var t := y.tables;
    match e {
      case CommitPropose(id, drawn, _) =>
        CreateKeepsLedger(t.ledger, y.calls[id].draft, drawn);
        LedgerStepKeepsInv(initial, t, NextTables(y, e).ledger);
      case CommitDecide(id, now, _) =>
        assert CallInv(t.ledger, t.journal, y.calls[id]);
        DecideKeepsLedger(t.ledger, y.calls[id].receipt, y.calls[id].approval, now);
        LedgerStepKeepsInv(initial, t, NextTables(y, e).ledger);
      case CommitExecute(id, now, _) =>
        assert CallInv(t.ledger, t.journal, y.calls[id]);
        ExecuteKeepsInv(initial, t, y.calls[id].proposal, y.calls[id].verified, now);
        ExecuteMoves(t, y.calls[id].proposal, y.calls[id].verified, now);
      case _ =>
    }
  }

  lemma CreateKeepsCommands(l: Ledger, d: Draft, drawn: Uuid)
    requires CommandsValid(l) && d.command.Valid()
    ensures CommandsValid(CreateOrGet(l, d, drawn).0)
  {
  }

  lemma DecideKeepsCommands(l: Ledger, d: Decision, approval: Option<Approval>, now: int)
    requires CommandsValid(l)
    ensures CommandsValid(Decide(l, d, approval, now).0)
  {
  }

  lemma CommandsStayValid(y: System, e: Event)
    requires CommandsValid(y.tables.ledger) && Enabled(y, e)
    requires e.CommitPropose? ==> y.calls[e.id].draft.command.Valid()
    ensures CommandsValid(NextTables(y, e).ledger)
  {
    match e {
      case CommitPropose(id, drawn, _) => CreateKeepsCommands(y.tables.ledger, y.calls[id].draft, drawn);
      case CommitDecide(id, now, _) =>
        DecideKeepsCommands(y.tables.ledger, y.calls[id].receipt, y.calls[id].approval, now);
      case _ =>
    }
  }

  // What a call is left with is justified by the tables its step leaves behind.

  lemma BeginStep(y: System, e: Event)
    requires CommandsValid(y.tables.ledger) && Enabled(y, e)
    requires e.BeginPropose? || e.BeginDecide? || e.BeginExecute?
    requires Listed(y.tables.ledger)
    ensures CallInv(y.tables.ledger, y.tables.journal, NextCall(y, e))
  {
  }

  lemma ReadDecisionStep(l: Ledger, j: Journal, c: Call)
    requires DecidedApart(l) && c.AwaitingDecision? && CallInv(l, j, c)
    ensures CallInv(l, j, DecisionRead(l, c))
  {
    if c.proposal.ref in l.decisions {
      assert DecisionOf(l.proposals[c.proposal.ref], c.proposal.ref, l.decisions[c.proposal.ref]);
    }
  }

  lemma ReadExecutionStep(l: Ledger, j: Journal, c: Call, now: int)
    requires DecidedApart(l) && Filed(j) && c.AwaitingExecution? && CallInv(l, j, c)
    ensures CallInv(l, j, ExecutionRead(j, c, now))
  {
    assert DecisionOf(l.proposals[c.proposal.ref], c.proposal.ref, c.decision);
    if VerifyGrant(c.grant, c.decision.approval.value, c.actor, now).Ok? {
      VerifiedGrantIsIssued(c.grant, c.decision.receipt, c.decision.approval.value, c.actor, now);
    }
  }

  lemma CommitProposeStep(l: Ledger, j: Journal, d: Draft, drawn: Uuid)
    requires LedgerInv(l)
    ensures var (l', r) := CreateOrGet(l, d, drawn);
      CallInv(l', j, if r.Ok? then ProposalReturned(r.value) else Raised(r.error))
  {
  }

  lemma CommitDecideStep(l: Ledger, j: Journal, d: Decision, approval: Option<Approval>, now: int)
    ensures var (l', r) := Decide(l, d, approval, now);
      CallInv(l', j, if r.Ok? then DecisionReturned(r.value) else Raised(r.error))
  {
  }

  lemma CommitExecuteStep(t: Tables, c: Call, now: int)
    requires Filed(t.journal) && c.Executing? && CallInv(t.ledger, t.journal, c)
    ensures var (t', r) := Execute(t, c.proposal, c.verified, now);
      CallInv(t'.ledger, t'.journal, if r.Ok? then ReceiptReturned(c.grant, r.value) else Raised(r.error))
  {
  }

  lemma CallStep(initial: map<Uuid, Task>, y: System, e: Event)
    requires SystemInv(initial, y) && Enabled(y, e)
    ensures CallInv(NextTables(y, e).ledger, NextTables(y, e).journal, NextCall(y, e))
  {
    var l, j := y.tables.ledger, y.tables.journal;
    if e.id in y.calls {
      assert CallInv(l, j, y.calls[e.id]);
    }
    hide CallInv, Chained, Derived, Authorised;
    match e {
      case ReadDecision(id) => ReadDecisionStep(l, j, y.calls[id]);
      case ReadExecution(id, now) => ReadExecutionStep(l, j, y.calls[id], now);
      case CommitPropose(id, drawn, lost) => CommitProposeStep(l, j, y.calls[id].draft, drawn);
      case CommitDecide(id, now, lost) => CommitDecideStep(l, j, y.calls[id].receipt, y.calls[id].approval, now);
      case CommitExecute(id, now, lost) => CommitExecuteStep(y.tables, y.calls[id], now);
      case _ => BeginStep(y, e);
    }
  }

  /** Calls that do not take the step keep what they rely on. */
  lemma OthersStay(y: System, y': System, moved: nat)
    requires TablesMove(y.tables, y'.tables)
    requires forall id <- y.calls :: CallInv(y.tables.ledger, y.tables.journal, y.calls[id])
    requires moved in y'.calls && CallInv(y'.tables.ledger, y'.tables.journal, y'.calls[moved])
    requires forall id <- y'.calls :: id == moved || (id in y.calls && y'.calls[id] == y.calls[id])
    ensures forall id <- y'.calls :: CallInv(y'.tables.ledger, y'.tables.journal, y'.calls[id])
  {
    var l, j, l', j' := y.tables.ledger, y.tables.journal, y'.tables.ledger, y'.tables.journal;
    assert Grows(l, l') && JournalGrows(j, j');
    hide TablesMove, Grows, JournalGrows, CallInv;
    forall id <- y'.calls
      ensures CallInv(l', j', y'.calls[id])
    {
      if id != moved {
        CallInvStable(l, j, l', j', y.calls[id]);
      }
    }
  }

  lemma ProposedIsValid(y: System, e: Event)
    requires Enabled(y, e) && e.CommitPropose?
    requires forall id <- y.calls :: CallInv(y.tables.ledger, y.tables.journal, y.calls[id])
    ensures e.id in y.calls && y.calls[e.id].Proposing? && y.calls[e.id].draft.command.Valid()
  {
    assert CallInv(y.tables.ledger, y.tables.journal, y.calls[e.id]);
  }

  lemma StepKeepsInv(initial: map<Uuid, Task>, y: System, e: Event)
    requires WellFormedTasks(initial) && SystemInv(initial, y) && Enabled(y, e)
    ensures SystemInv(initial, Next(y, e)) && TablesMove(y.tables, Next(y, e).tables)
  {
    hide TablesInv, CommandsValid, CallInv, TablesMove, NextTables, NextCall, Enabled, WellFormedTasks;
    TablesStep(initial, y, e);
    if e.CommitPropose? {
      ProposedIsValid(y, e);
    }
    CommandsStayValid(y, e);
    CallStep(initial, y, e);
    OthersStay(y, Next(y, e), e.id);
  }

  // ---- whole runs ----

  lemma {:induction false} RunInv(initial: map<Uuid, Task>, states: seq<System>, events: seq<Event>, i: nat)
    requires WellFormedTasks(initial) && IsRun(initial, states, events) && i < |states|
    ensures SystemInv(initial, states[i])
  {
    if i == 0 {
      StartInv(initial);
    } else {
      RunInv(initial, states, events, i - 1);
      StepKeepsInv(initial, states[i - 1], events[i - 1]);
    }
  }

  lemma TablesMoveReflexive(t: Tables)
    ensures TablesMove(t, t)
  {
  }

  /** Along a run the tables only move forward. */
  lemma {:induction false} RunMoves(initial: map<Uuid, Task>, states: seq<System>, events: seq<Event>, i: nat, j: nat)
    requires WellFormedTasks(initial) && IsRun(initial, states, events) && i <= j < |states|
    ensures TablesMove(states[i].tables, states[j].tables)
  {
    hide TablesMove, SystemInv;
    if i < j {
      RunMoves(initial, states, events, i, j - 1);
      RunInv(initial, states, events, j - 1);
      StepKeepsInv(initial, states[j - 1], events[j - 1]);
      TablesMoveTransitive(states[i].tables, states[j - 1].tables, states[j].tables);
    } else {
      TablesMoveReflexive(states[i].tables);
    }
  }

  // ---- tasks and their risks ----

  /** Risks are never lost, and a final one never changes. */
  ghost predicate RisksMove(g: Targets, g': Targets) {
    forall k <- g.risks :: k in g'.risks && (g.risks[k].status.Final? ==> g'.risks[k] == g.risks[k])
  }

  lemma UpdateMovesRisks(g: Targets, c: Command, ref: ProposalRef)
    requires Coupled(g) && c.Existing() && ApplyToTask(g, c, ref).Ok?
    ensures RisksMove(g, ApplyToTask(g, c, ref).value.targets)
  {
    assert LinkRule(c.task, g.tasks[c.task], g.risks);
  }

  lemma ExecuteKeepsCoupled(t: Tables, p: Proposal, approval: Approval, now: int)
    requires Derived(t.journal, t.targets) && Coupled(t.targets) && p.command.Valid()
    ensures var g' := Execute(t, p, approval, now).0.targets; Coupled(g') && RisksMove(t.targets, g')
  {
    if p.ref !in t.journal.executions {
      if !p.command.Existing() {
        CreatedIdentitiesAreNew(t.journal, t.targets, p.ref);
        CreationKeepsCoupled(t.targets, p.command, p.ref);
      } else if ApplyCommand(t.targets, p.command, p.ref).Ok? {
        UpdateKeepsCoupled(t.targets, p.command, p.ref);
        UpdateMovesRisks(t.targets, p.command, p.ref);
      }
      hide Coupled, RisksMove, Derived, ApplyToTask, ApplyCreation;
    }
  }

  lemma StepKeepsCoupled(initial: map<Uuid, Task>, y: System, e: Event)
    requires SystemInv(initial, y) && Coupled(y.tables.targets) && Enabled(y, e)
    ensures Coupled(NextTables(y, e).targets) && RisksMove(y.tables.targets, NextTables(y, e).targets)
  {
    hide Coupled, LedgerInv, Chained, Counted, Authorised, Execute;
    assert RisksMove(y.tables.targets, y.tables.targets);
    if e.CommitExecute? {
      assert CallInv(y.tables.ledger, y.tables.journal, y.calls[e.id]);
      ExecuteKeepsCoupled(y.tables, y.calls[e.id].proposal, y.calls[e.id].verified, e.now);
    }
  }

  /** From coupled tasks every reachable state keeps tasks, conclusions and risks coupled. */
  lemma {:induction false} RunCoupled(initial: map<Uuid, Task>, states: seq<System>, events: seq<Event>, i: nat)
    requires CoupledTasks(initial) && IsRun(initial, states, events) && i < |states|
    ensures Coupled(states[i].tables.targets)
  {
    hide SystemInv, Coupled, Enabled, NextTables;
    if i == 0 {
      StartCoupled(initial);
    } else {
      RunCoupled(initial, states, events, i - 1);
      RunInv(initial, states, events, i - 1);
      StepKeepsCoupled(initial, states[i - 1], events[i - 1]);
    }
  }

  lemma {:induction false} RunMovesRisks(initial: map<Uuid, Task>, states: seq<System>, events: seq<Event>, i: nat, j: nat)
    requires CoupledTasks(initial) && IsRun(initial, states, events) && i <= j < |states|
    ensures RisksMove(states[i].tables.targets, states[j].tables.targets)
  {
    hide SystemInv, Coupled, Enabled, NextTables;
    if i < j {
      RunMovesRisks(initial, states, events, i, j - 1);
      RunCoupled(initial, states, events, j - 1);
      RunInv(initial, states, events, j - 1);
      StepKeepsCoupled(initial, states[j - 1], events[j - 1]);
    }
  }
}
