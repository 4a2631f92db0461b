/** The propose / decide / execute workflow: every store call is one atomic step, and the steps of
    any number of calls interleave. A call whose store step commits may still lose its response. */
module OperationWorkflow {
  import opened Common
  import opened Operations
  import opened OperationStore

  const PROPOSAL_LIFETIME := 86400
  const GRANT_LIFETIME := 600

  /** Where a workflow call stands between two awaits, or how it ended. */
  datatype Call =
    | Proposing(draft: Draft)
    | Deciding(receipt: Decision, approval: Option<Approval>)
    | AwaitingDecision(actor: ActorId, grant: Grant, proposal: Proposal)
    | AwaitingExecution(actor: ActorId, grant: Grant, proposal: Proposal, decision: StoredDecision)
    | Executing(grant: Grant, proposal: Proposal, verified: Approval)
    | ProposalReturned(proposal: Proposal)
    | DecisionReturned(receipt: Decision)
    | ReceiptReturned(grant: Grant, execution: Receipt)
    | Raised(error: Error)
    | Lost

  datatype System = System(tables: Tables, calls: map<nat, Call>)

  /** One atomic step; `now`, `nonce` and `drawn` are what the clock and the random sources give. */
  datatype Event =
    | BeginPropose(id: nat, actor: ActorId, role: Role, key: string, command: Command,
        revises: Option<ProposalRef>, now: int)
    | CommitPropose(id: nat, drawn: Uuid, lost: bool)
    | BeginDecide(id: nat, actor: ActorId, role: Role, ref: ProposalRef, approve: bool, nonce: nat,
        keyVersion: nat, now: int)
    | CommitDecide(id: nat, now: int, lost: bool)
    | BeginExecute(id: nat, actor: ActorId, role: Role, grant: Grant)
    | ReadDecision(id: nat)
    | ReadExecution(id: nat, now: int)
    | CommitExecute(id: nat, now: int, lost: bool)

  function IssueGrant(p: Proposal, approver: ActorId, nonce: nat, keyVersion: nat, now: int): Grant {
    var expiresAt := now + GRANT_LIFETIME;
    Grant(p.ref, p.payload, p.requester, approver, expiresAt, nonce, keyVersion,
      Signature(keyVersion, p.ref, p.payload, p.requester, approver, expiresAt, nonce))
  }

  function ApprovalFor(g: Grant): Approval {
    Approval(g.ref, g.payload, g.requester, g.approver, g.expiresAt, NonceDigest(g.nonce), g.keyVersion)
  }

  /** The grant check: actor, signature, bindings, nonce, expiry, in the order the service makes them. */
  function VerifyGrant(g: Grant, stored: Approval, actor: ActorId, now: int): Result<(), Error> {
    if actor != g.approver || actor != stored.approver then Err(GrantActorMismatch)
    else if g.signature != Signature(g.keyVersion, g.ref, g.payload, g.requester, g.approver, g.expiresAt, g.nonce) then
      Err(SignatureInvalid)
    else if (stored.ref, stored.payload, stored.requester, stored.expiresAt, stored.keyVersion)
         != (g.ref, g.payload, g.requester, g.expiresAt, g.keyVersion) then
      Err(SignatureInvalid)
    else if NonceDigest(g.nonce) != stored.nonceDigest then Err(SignatureInvalid)
    else if now >= g.expiresAt then Err(GrantExpired)
    else Ok(())
  }

  function Proposed(g: Targets, actor: ActorId, role: Role, key: string, command: Command,
                    revises: Option<ProposalRef>, now: int): Call {
    if role != Analyst then Raised(RoleRequired)
    else
      match PreviewTarget(g, command)
      case Err(e) => Raised(e)
      case Ok(version) =>
        Proposing(Draft(actor, key, command, PayloadDigest(command, version), revises, now, now + PROPOSAL_LIFETIME))
  }

  function Decided(l: Ledger, actor: ActorId, role: Role, ref: ProposalRef, approve: bool, nonce: nat,
                   keyVersion: nat, now: int): Call {
    if role != Approver then Raised(RoleRequired)
    else if ref !in l.proposals then Raised(ProposalNotFound)
    else if l.proposals[ref].requester == actor then Raised(SelfApprovalDenied)
    else if approve then
      var grant := IssueGrant(l.proposals[ref], actor, nonce, keyVersion, now);
      Deciding(Decision(ref, Approved, actor, now, Some(grant)), Some(ApprovalFor(grant)))
    else
      Deciding(Decision(ref, Rejected, actor, now, None), None)
  }

  function ExecutionStarted(l: Ledger, actor: ActorId, role: Role, grant: Grant): Call {
    if role != Approver then Raised(RoleRequired)
    else if grant.ref !in l.proposals then Raised(ProposalNotFound)
    else AwaitingDecision(actor, grant, l.proposals[grant.ref])
  }

  function DecisionRead(l: Ledger, c: Call): Call
    requires c.AwaitingDecision?
  {
    if c.proposal.ref !in l.decisions then Raised(ApprovalRequired)
    else
      var decision := l.decisions[c.proposal.ref];
      if decision.receipt.status != Approved || decision.approval.None? || decision.receipt.grant.None? then
        Raised(ApprovalRequired)
      else if c.actor != decision.receipt.approver || c.grant.approver != decision.receipt.approver then
        Raised(GrantActorMismatch)
      else
        AwaitingExecution(c.actor, c.grant, c.proposal, decision)
  }

  /** An execution already recorded is returned to the holder of the issued grant, expired or not. */
  function ExecutionRead(j: Journal, c: Call, now: int): Call
    requires c.AwaitingExecution? && c.decision.approval.Some?
  {
    if c.proposal.ref in j.executions && Some(c.grant) == c.decision.receipt.grant then
      ReceiptReturned(c.grant, j.executions[c.proposal.ref])
    else
      match VerifyGrant(c.grant, c.decision.approval.value, c.actor, now)
      case Err(e) => Raised(e)
      case Ok(_) => Executing(c.grant, c.proposal, c.decision.approval.value)
  }

  predicate Enabled(y: System, e: Event) {
    match e
    case BeginPropose(id, _, _, _, command, _, _) => id !in y.calls && command.Valid()
    case BeginDecide(id, _, _, _, _, _, _, _) => id !in y.calls
    case BeginExecute(id, _, _, _) => id !in y.calls
    case CommitPropose(id, drawn, _) =>
      && id in y.calls && y.calls[id].Proposing?
      && drawn.Random? && drawn !in y.tables.ledger.latest
    case CommitDecide(id, _, _) => id in y.calls && y.calls[id].Deciding?
    case ReadDecision(id) => id in y.calls && y.calls[id].AwaitingDecision?
    case ReadExecution(id, _) =>
      && id in y.calls && y.calls[id].AwaitingExecution? && y.calls[id].decision.approval.Some?
    case CommitExecute(id, _, _) => id in y.calls && y.calls[id].Executing?
  }

  /** The tables after a step. Only the three committing steps write. */
  function NextTables(y: System, e: Event): Tables
    requires Enabled(y, e)
  {
    match e
    case CommitPropose(id, drawn, _) =>
      y.tables.(ledger := CreateOrGet(y.tables.ledger, y.calls[id].draft, drawn).0)
    case CommitDecide(id, now, _) =>
      y.tables.(ledger := Decide(y.tables.ledger, y.calls[id].receipt, y.calls[id].approval, now).0)
    case CommitExecute(id, now, _) => Execute(y.tables, y.calls[id].proposal, y.calls[id].verified, now).0
    case _ => y.tables
  }

  /** What the stepping call is left with; a lost response leaves it without an answer. */
  function NextCall(y: System, e: Event): Call
    requires Enabled(y, e)
  {
    match e
    case BeginPropose(_, actor, role, key, command, revises, now) =>
      Proposed(y.tables.targets, actor, role, key, command, revises, now)
    case BeginDecide(_, actor, role, ref, approve, nonce, keyVersion, now) =>
      Decided(y.tables.ledger, actor, role, ref, approve, nonce, keyVersion, now)
    case BeginExecute(_, actor, role, grant) => ExecutionStarted(y.tables.ledger, actor, role, grant)
    case ReadDecision(id) => DecisionRead(y.tables.ledger, y.calls[id])
    case ReadExecution(id, now) => ExecutionRead(y.tables.journal, y.calls[id], now)
    case CommitPropose(id, drawn, lost) =>
      if lost then Lost
      else
        var r := CreateOrGet(y.tables.ledger, y.calls[id].draft, drawn).1;
        if r.Ok? then ProposalReturned(r.value) else Raised(r.error)
    case CommitDecide(id, now, lost) =>
      if lost then Lost
      else
        var r := Decide(y.tables.ledger, y.calls[id].receipt, y.calls[id].approval, now).1;
        if r.Ok? then DecisionReturned(r.value) else Raised(r.error)
    case CommitExecute(id, now, lost) =>
      if lost then Lost
      else
        var r := Execute(y.tables, y.calls[id].proposal, y.calls[id].verified, now).1;
        if r.Ok? then ReceiptReturned(y.calls[id].grant, r.value) else Raised(r.error)
  }

  function Next(y: System, e: Event): System
    requires Enabled(y, e)
  {
    System(NextTables(y, e), y.calls[e.id := NextCall(y, e)])
  }

  /** Tasks a store may be given: their identities are not ones it will derive. */
  predicate WellFormedTasks(tasks: map<Uuid, Task>) {
    forall k <- tasks :: k.Random?
  }

  /** Tasks that are coupled as the store keeps them: no risk is known yet, and conclusions follow the
      status rule. */
  predicate CoupledTasks(tasks: map<Uuid, Task>) {
    && WellFormedTasks(tasks)
    && forall k <- tasks ::
         && tasks[k].risk.None?
         && (tasks[k].conclusion.Some? ==> tasks[k].status == Resolved || tasks[k].status == Closed)
         && (tasks[k].status == Closed ==> tasks[k].conclusion.Some?)
  }

  function Start(tasks: map<Uuid, Task>): System {
    System(EmptyTables(tasks), map[])
  }

  /** A run: a start state and one enabled event between each two states. */
  ghost predicate IsRun(tasks: map<Uuid, Task>, states: seq<System>, events: seq<Event>) {
    && |states| == |events| + 1
    && states[0] == Start(tasks)
    && forall i | 0 <= i < |events| :: Enabled(states[i], events[i]) && states[i + 1] == Next(states[i], events[i])
  }
}
