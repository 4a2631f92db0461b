/** The in-memory operation store: what each locked call does to the tables, and the class doing it. */
module OperationStore {
  import opened Common
  import opened Operations

  datatype StoredDecision = StoredDecision(receipt: Decision, approval: Option<Approval>)

  /** Proposals by version, their latest version, the idempotency bindings and the decisions. */
  datatype Ledger = Ledger(
    proposals: map<ProposalRef, Proposal>,
    latest: map<Uuid, nat>,
    idempotency: map<(ActorId, string), Binding>,
    decisions: map<ProposalRef, StoredDecision>)

  /** Executions with their insertion order, claimed nonces, and the three counters. */
  datatype Journal = Journal(
    executions: map<ProposalRef, Receipt>,
    order: seq<ProposalRef>,
    nonces: map<NonceDigest, ProposalRef>,
    writes: nat,
    audits: nat,
    claims: nat)

  /** What commands write. */
  datatype Targets = Targets(
    tasks: map<Uuid, Task>,
    risks: map<Uuid, Risk>,
    rules: map<Uuid, Rule>)

  datatype Tables = Tables(ledger: Ledger, journal: Journal, targets: Targets)

  function EmptyTables(tasks: map<Uuid, Task>): Tables {
    Tables(Ledger(map[], map[], map[], map[]), Journal(map[], [], map[], 0, 0, 0), Targets(tasks, map[], map[]))
  }

  /** The current version of the target a command names, or the error the preview raises. */
  function PreviewTarget(g: Targets, c: Command): Result<nat, Error> {
    if !c.Existing() then Ok(0)
    else if c.task !in g.tasks then Err(TaskNotFound)
    else if g.tasks[c.task].version != c.expected then Err(VersionConflict)
    else Ok(g.tasks[c.task].version)
  }

  /** A revision is accepted from the requester of the pending latest version only. */
  predicate Revisable(l: Ledger, actor: ActorId, prior: ProposalRef) {
    && prior in l.proposals
    && l.proposals[prior].requester == actor
    && l.proposals[prior].status == Pending
    && prior.id in l.latest
    && l.latest[prior.id] == prior.version
  }

  function NewProposal(d: Draft, ref: ProposalRef): Proposal {
    Proposal(ref, Pending, d.actor, d.command, d.payload, d.createdAt, d.expiresAt)
  }

  function Insert(l: Ledger, d: Draft, ref: ProposalRef): Ledger {
    l.(proposals := l.proposals[ref := NewProposal(d, ref)],
       latest := l.latest[ref.id := ref.version],
       idempotency := l.idempotency[(d.actor, d.key) := Binding(ref, d.payload)])
  }

  function SetStatus(l: Ledger, ref: ProposalRef, status: ProposalStatus): Ledger
    requires ref in l.proposals
  {
    l.(proposals := l.proposals[ref := l.proposals[ref].(status := status)])
  }

  function CreateOrGet(l: Ledger, d: Draft, drawn: Uuid): (Ledger, Result<Proposal, Error>) {
    var identity := (d.actor, d.key);
    if identity in l.idempotency then
      var bound := l.idempotency[identity];
      if bound.payload != d.payload then (l, Err(IdempotencyConflict))
      else if bound.ref !in l.proposals then (l, Err(MissingKey))
      else (l, Ok(l.proposals[bound.ref]))
    else if d.revises.None? then
      var ref := ProposalRef(drawn, 1);
      (Insert(l, d, ref), Ok(NewProposal(d, ref)))
    else
      var prior := d.revises.value;
      if !Revisable(l, d.actor, prior) then (l, Err(RevisionConflict))
      else
        var ref := ProposalRef(prior.id, prior.version + 1);
        (Insert(SetStatus(l, prior, Superseded), d, ref), Ok(NewProposal(d, ref)))
  }

  function Decide(l: Ledger, d: Decision, approval: Option<Approval>, now: int): (Ledger, Result<Decision, Error>) {
    if d.ref !in l.proposals then (l, Err(ProposalNotFound))
    else if l.proposals[d.ref].status != Pending then (l, Err(AlreadyDecided))
    else if now >= l.proposals[d.ref].expiresAt then (SetStatus(l, d.ref, Expired), Err(ProposalExpired))
    else (SetStatus(l, d.ref, d.status).(decisions := l.decisions[d.ref := StoredDecision(d, approval)]), Ok(d))
  }

  /** What a command does to its target task: the updated task, or the error raised. */
  function UpdatedTask(task: Task, c: Command, ref: ProposalRef): Result<Task, Error>
    requires c.Existing()
  {
    if task.version != c.expected then Err(VersionConflict)
    else match c
      case Assign(_, _, assignee) =>
        Ok(task.(assignee := Some(assignee), version := task.version + 1))
      case Transition(_, _, fromStatus, toStatus) =>
        if task.status != fromStatus then Err(StatusConflict)
        else Ok(task.(status := toStatus, version := task.version + 1))
      case AddConclusion(_, _) =>
        if task.status != Resolved then Err(NotResolved)
        else Ok(task.(conclusion := Some(ConclusionOf(ref)), version := task.version + 1))
      case Close(_, _, conclusion, disposition) =>
        if task.status != Resolved then Err(NotResolved)
        else if task.conclusion != Some(conclusion) then Err(ConclusionRequired)
        else if task.risk.Some? && disposition.None? then Err(DispositionRequired)
        else Ok(task.(status := Closed, version := task.version + 1))
  }

  function NewTask(c: Command, ref: ProposalRef): Task
    requires c.OpenSellerRiskCase? || c.CreateTask? || c.CreateTaskFromAlertHit?
  {
    match c
    case CreateTask(priority, summary) => Task(Open, priority, summary, 1, None, None, None)
    case CreateTaskFromAlertHit(priority) =>
      Task(Open, priority, "Created from a reviewed alert hit.", 1, None, None, None)
    case OpenSellerRiskCase(priority) =>
      Task(Open, priority, "Seller risk requires investigation.", 1, None, None, Some(Named(RiskName, ref)))
  }

  /** The target tables after a command, with the versions of its target before and after. */
  datatype Effect = Effect(targets: Targets, before: nat, after: nat)

  function ApplyCreation(g: Targets, c: Command, ref: ProposalRef): Effect
    requires !c.Existing()
  {
    if c.CreateAlertRule? then
      Effect(g.(rules := g.rules[Named(RuleName, ref) := Rule(1)]), 0, 1)
    else
      var tasks := g.tasks[Named(TaskName, ref) := NewTask(c, ref)];
      if c.OpenSellerRiskCase? then
        Effect(Targets(tasks, g.risks[Named(RiskName, ref) := Risk(UnderInvestigation, 1)], g.rules), 0, 1)
      else
        Effect(g.(tasks := tasks), 0, 1)
  }

  function ApplyToTask(g: Targets, c: Command, ref: ProposalRef): Result<Effect, Error>
    requires c.Existing()
  {
    if c.task !in g.tasks then Err(TaskNotFound)
    else
      var task := g.tasks[c.task];
      var updated := UpdatedTask(task, c, ref);
      if updated.Err? then Err(updated.error)
      else
        var tasks := g.tasks[c.task := updated.value];
        if !c.Close? || task.risk.None? then Ok(Effect(g.(tasks := tasks), task.version, task.version + 1))
        else if task.risk.value !in g.risks then Err(MissingKey)
        else
          var closed := Risk(Final(c.disposition.value), g.risks[task.risk.value].version + 1);
          Ok(Effect(Targets(tasks, g.risks[task.risk.value := closed], g.rules), task.version, task.version + 1))
  }

  function ApplyCommand(g: Targets, c: Command, ref: ProposalRef): Result<Effect, Error> {
    if c.Existing() then ApplyToTask(g, c, ref) else Ok(ApplyCreation(g, c, ref))
  }

  /** Files the receipt of a committed execution under its claimed nonce. */
  function File(j: Journal, receipt: Receipt, nonce: NonceDigest): Journal {
    Journal(j.executions[receipt.ref := receipt], j.order + [receipt.ref], j.nonces[nonce := receipt.ref],
      j.writes + 1, j.audits + 1, j.claims + 1)
  }

  function ReceiptOf(ref: ProposalRef, e: Effect, now: int): Receipt {
    Receipt(Named(OperationName, ref), ref, e.before, e.after, now)
  }

  function Execute(t: Tables, p: Proposal, approval: Approval, now: int): (Tables, Result<Receipt, Error>) {
    if p.ref in t.journal.executions then (t, Ok(t.journal.executions[p.ref]))
    else if approval.nonceDigest in t.journal.nonces then (t, Err(NonceUsed))
    else
      var applied := ApplyCommand(t.targets, p.command, p.ref);
      if applied.Err? then (t, Err(applied.error))
      else
        var receipt := ReceiptOf(p.ref, applied.value, now);
        (Tables(t.ledger, File(t.journal, receipt, approval.nonceDigest), applied.value.targets), Ok(receipt))
  }

  /** The class itself: every call runs under the lock, so a call is one atomic step. */
  class InMemoryOperationStore {
    var proposals: map<ProposalRef, Proposal>
    var latest: map<Uuid, nat>
    var idempotency: map<(ActorId, string), Binding>
    var decisions: map<ProposalRef, StoredDecision>
    var executions: map<ProposalRef, Receipt>
    var order: seq<ProposalRef>
    var nonces: map<NonceDigest, ProposalRef>
    var tasks: map<Uuid, Task>
    var risks: map<Uuid, Risk>
    var rules: map<Uuid, Rule>
    var writes: nat
    var audits: nat
    var claims: nat

    function LedgerNow(): Ledger
      reads this
    {
      Ledger(proposals, latest, idempotency, decisions)
    }

    function JournalNow(): Journal
      reads this
    {
      Journal(executions, order, nonces, writes, audits, claims)
    }

    function TargetsNow(): Targets
      reads this
    {
      Targets(tasks, risks, rules)
    }

    function Contents(): Tables
      reads this
    {
      Tables(LedgerNow(), JournalNow(), TargetsNow())
    }

    constructor (initialTasks: map<Uuid, Task>)
      ensures Contents() == EmptyTables(initialTasks)
    {
      proposals, latest, idempotency, decisions, executions := map[], map[], map[], map[], map[];
      order, nonces, tasks, risks, rules := [], map[], initialTasks, map[], map[];
      writes, audits, claims := 0, 0, 0;
    }

    method CreateOrGetProposal(d: Draft, drawn: Uuid) returns (r: Result<Proposal, Error>)
      modifies `proposals, `latest, `idempotency
      ensures (LedgerNow(), r) == CreateOrGet(old(LedgerNow()), d, drawn)
    {
      var identity := (d.actor, d.key);
      if identity in idempotency {
        var bound := idempotency[identity];
        if bound.payload != d.payload {
          return Err(IdempotencyConflict);
        }
        if bound.ref !in proposals {
          return Err(MissingKey);
        }
        return Ok(proposals[bound.ref]);
      }
      var ref;
      if d.revises.None? {
        ref := ProposalRef(drawn, 1);
      } else {
        var prior := d.revises.value;
        if prior !in proposals || proposals[prior].requester != d.actor || proposals[prior].status != Pending
           || prior.id !in latest || latest[prior.id] != prior.version {
          return Err(RevisionConflict);
        }
        proposals := proposals[prior := proposals[prior].(status := Superseded)];
        ref := ProposalRef(prior.id, prior.version + 1);
      }
      var p := Proposal(ref, Pending, d.actor, d.command, d.payload, d.createdAt, d.expiresAt);
      proposals := proposals[ref := p];
      latest := latest[ref.id := ref.version];
      idempotency := idempotency[identity := Binding(ref, d.payload)];
      return Ok(p);
    }

    method DecideOnce(d: Decision, approval: Option<Approval>, now: int) returns (r: Result<Decision, Error>)
      modifies `proposals, `decisions
      ensures (LedgerNow(), r) == Decide(old(LedgerNow()), d, approval, now)
    {
      if d.ref !in proposals {
        return Err(ProposalNotFound);
      }
      var p := proposals[d.ref];
      if p.status != Pending {
        return Err(AlreadyDecided);
      }
      if now >= p.expiresAt {
        proposals := proposals[d.ref := p.(status := Expired)];
        return Err(ProposalExpired);
      }
      proposals := proposals[d.ref := p.(status := d.status)];
      decisions := decisions[d.ref := StoredDecision(d, approval)];
      return Ok(d);
    }

    method ExecuteOnce(p: Proposal, approval: Approval, now: int) returns (r: Result<Receipt, Error>)
      modifies this
      ensures (Contents(), r) == Execute(old(Contents()), p, approval, now)
    {
      if p.ref in executions {
        return Ok(executions[p.ref]);
      }
      if approval.nonceDigest in nonces {
        return Err(NonceUsed);
      }
      var versions := Apply(p.command, p.ref);
      if versions.Err? {
        return Err(versions.error);
      }
      var receipt := Record(p.ref, approval.nonceDigest, versions.value.0, versions.value.1, now);
      return Ok(receipt);
    }

    /** Claims the nonce and files the receipt of an effect already applied. */
    method Record(ref: ProposalRef, nonce: NonceDigest, before: nat, after: nat, now: int) returns (receipt: Receipt)
      modifies `nonces, `executions, `order, `writes, `audits, `claims
      ensures receipt == Receipt(Named(OperationName, ref), ref, before, after, now)
      ensures JournalNow() == File(old(JournalNow()), receipt, nonce)
    {
      receipt := Receipt(Named(OperationName, ref), ref, before, after, now);
      nonces := nonces[nonce := ref];
      executions := executions[ref := receipt];
      order := order + [ref];
      writes := writes + 1;
      audits := audits + 1;
      claims := claims + 1;
    }

    method Apply(c: Command, ref: ProposalRef) returns (r: Result<(nat, nat), Error>)
      modifies `tasks, `risks, `rules
      ensures var applied := ApplyCommand(old(TargetsNow()), c, ref);
        if applied.Err? then r == Err(applied.error) && TargetsNow() == old(TargetsNow())
        else r.Ok? && applied.value == Effect(TargetsNow(), r.value.0, r.value.1)
    {
      if c.CreateAlertRule? {
        rules := rules[Named(RuleName, ref) := Rule(1)];
        return Ok((0, 1));
      }
      if !c.Existing() {
        tasks := tasks[Named(TaskName, ref) := NewTask(c, ref)];
        if c.OpenSellerRiskCase? {
          risks := risks[Named(RiskName, ref) := Risk(UnderInvestigation, 1)];
        }
        return Ok((0, 1));
      }
      if c.task !in tasks {
        return Err(TaskNotFound);
      }
      var task := tasks[c.task];
      var updated := UpdatedTask(task, c, ref);
      if updated.Err? {
        return Err(updated.error);
      }
      if c.Close? && task.risk.Some? {
        if task.risk.value !in risks {
          return Err(MissingKey);
        }
        risks := risks[task.risk.value := Risk(Final(c.disposition.value), risks[task.risk.value].version + 1)];
      }
      tasks := tasks[c.task := updated.value];
      return Ok((task.version, updated.value.version));
    }
  }
}
