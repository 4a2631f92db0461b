/** What every reachable state of the operation tables satisfies, and why each store call keeps it. */
module OperationInvariants {
  import opened Common
  import opened Operations
  import opened OperationStore
  import opened OperationWorkflow

  /** A filed version lies in 1..latest, and is superseded exactly when it is below the latest. */
  ghost predicate Listed(l: Ledger) {
    forall r <- l.proposals ::
      && r.id in l.latest && 1 <= r.version <= l.latest[r.id] && l.proposals[r].ref == r
      && (l.proposals[r].status == Superseded <==> r.version < l.latest[r.id])
  }

  /** Every version in 1..latest is filed, and there is at least one. */
  ghost predicate Dense(l: Ledger) {
    && (forall id <- l.latest :: l.latest[id] >= 1)
    && (forall id, v | id in l.latest && 1 <= v <= l.latest[id] :: ProposalRef(id, v) in l.proposals)
  }

  ghost predicate LiveVersions(l: Ledger) {
    Listed(l) && Dense(l)
  }

  /** A decision is on record exactly for the approved and the rejected versions, by somebody other
      than the requester; an approval carries the grant it was issued with. */
  ghost predicate DecidedApart(l: Ledger) {
    && (forall r <- l.proposals ::
          l.proposals[r].status == Approved || l.proposals[r].status == Rejected <==> r in l.decisions)
    && (forall r <- l.decisions :: r in l.proposals && DecisionOf(l.proposals[r], r, l.decisions[r]))
  }

  predicate DecisionOf(p: Proposal, ref: ProposalRef, d: StoredDecision) {
    && d.receipt.ref == ref
    && d.receipt.status == p.status
    && d.receipt.approver != p.requester
    && WellIssued(d.receipt, d.approval)
  }

  predicate WellIssued(d: Decision, approval: Option<Approval>) {
    && d.Valid()
    && (d.grant.None? ==> approval.None?)
    && (d.grant.Some? ==>
          var g := d.grant.value;
          && approval == Some(ApprovalFor(g))
          && g.ref == d.ref
          && g.approver == d.approver
          && g.signature == Signature(g.keyVersion, g.ref, g.payload, g.requester, g.approver, g.expiresAt, g.nonce))
  }

  /** Idempotency bindings name proposals of the same requester and payload. */
  ghost predicate Bound(l: Ledger) {
    forall k <- l.idempotency ::
      var b := l.idempotency[k];
      b.ref in l.proposals && l.proposals[b.ref].requester == k.0 && l.proposals[b.ref].payload == b.payload
  }

  /** Executions match the claimed nonces, the business writes, the audit records and the commit
      order one for one. */
  ghost predicate Counted(j: Journal) {
    && |j.executions| == |j.nonces| == |j.order| == j.writes == j.audits == j.claims
    && Ordered(j)
    && Filed(j)
  }

  /** The commit order lists every execution once. */
  ghost predicate Ordered(j: Journal) {
    && (forall r <- j.order :: r in j.executions)
    && (forall r <- j.executions :: r in j.order)
    && (forall i, k | 0 <= i < k < |j.order| :: j.order[i] != j.order[k])
  }

  ghost predicate Filed(j: Journal) {
    && (forall r <- j.executions :: j.executions[r].ref == r && j.executions[r].executionId == Named(OperationName, r))
    && (forall n <- j.nonces :: j.nonces[n] in j.executions)
  }

  /** Executions are on approved versions, under the nonce their approval carries. */
  ghost predicate Authorised(l: Ledger, j: Journal) {
    && (forall r <- j.executions :: r in l.decisions && l.decisions[r].receipt.status == Approved)
    && (forall n <- j.nonces ::
          && j.nonces[n] in l.decisions
          && l.decisions[j.nonces[n]].approval.Some?
          && l.decisions[j.nonces[n]].approval.value.nonceDigest == n)
  }

  /** Every derived identity names the execution that created it. */
  ghost predicate Derived(j: Journal, g: Targets) {
    && (forall k <- g.tasks :: k.Random? || (k.space == TaskName && k.of in j.executions))
    && (forall k <- g.risks :: k.Named? && k.space == RiskName && k.of in j.executions)
    && (forall k <- g.rules :: k.Named? && k.space == RuleName && k.of in j.executions)
  }

  predicate ConclusionRule(task: Task) {
    && (task.conclusion.Some? ==> task.status == Resolved || task.status == Closed)
    && (task.status == Closed ==> task.conclusion.Some?)
  }

  /** The risk a task links is its own, open at version 1 until the task closes, final at version 2 after. */
  predicate LinkRule(k: Uuid, task: Task, risks: map<Uuid, Risk>) {
    task.risk.Some? ==>
      && k.Named? && k.space == TaskName
      && task.risk.value == Named(RiskName, k.of)
      && task.risk.value in risks
      && var risk := risks[task.risk.value];
         if task.status == Closed then risk.status.Final? && risk.version == 2
         else risk == Risk(UnderInvestigation, 1)
  }

  ghost predicate Coupled(g: Targets) {
    && (forall k <- g.tasks :: ConclusionRule(g.tasks[k]) && LinkRule(k, g.tasks[k], g.risks))
    && (forall r <- g.risks ::
          r.Named? && Named(TaskName, r.of) in g.tasks && g.tasks[Named(TaskName, r.of)].risk == Some(r))
  }

  /** The identity of the task a command touches, if it touches one. */
  function Target(c: Command, ref: ProposalRef): Option<Uuid> {
    if c.Existing() then Some(c.task)
    else if c.CreateAlertRule? then None
    else Some(Named(TaskName, ref))
  }

  /** Whether the execution of `ref` touched task `k`. */
  predicate Touches(l: Ledger, j: Journal, ref: ProposalRef, k: Uuid) {
    ref in l.proposals && ref in j.executions && Target(l.proposals[ref].command, ref) == Some(k)
  }

  /** The receipts of the executions that touched task `k`, in commit order. */
  function Touching(l: Ledger, j: Journal, order: seq<ProposalRef>, k: Uuid): seq<Receipt> {
    if order == [] then []
    else
      var ref := order[|order| - 1];
      var earlier := Touching(l, j, order[..|order| - 1], k);
      if Touches(l, j, ref, k) then earlier + [j.executions[ref]] else earlier
  }

  /** Receipts that take a task from version `a` to version `b` one version at a time. */
  predicate UnbrokenChain(rs: seq<Receipt>, a: nat, b: nat) {
    && |rs| == b - a
    && forall i | 0 <= i < |rs| :: rs[i].before == a + i && rs[i].after == a + i + 1
  }

  function FirstVersion(initial: map<Uuid, Task>, k: Uuid): nat {
    if k in initial then initial[k].version else 0
  }

  /** Every executed command found its task, at the version it names. */
  ghost predicate TargetsKnown(l: Ledger, j: Journal, g: Targets) {
    forall r <- j.executions ::
      && r in l.proposals
      && var c := l.proposals[r].command;
         && (Target(c, r).Some? ==> Target(c, r).value in g.tasks)
         && (c.Existing() ==> j.executions[r].before == c.expected)
  }

  ghost predicate Chained(initial: map<Uuid, Task>, l: Ledger, j: Journal, g: Targets) {
    && initial.Keys <= g.tasks.Keys
    && TargetsKnown(l, j, g)
    && forall k <- g.tasks ::
         UnbrokenChain(Touching(l, j, j.order, k), FirstVersion(initial, k), g.tasks[k].version)
  }

  ghost predicate LedgerInv(l: Ledger) {
    LiveVersions(l) && DecidedApart(l) && Bound(l)
  }

  ghost predicate WorkInv(initial: map<Uuid, Task>, l: Ledger, j: Journal, g: Targets) {
    && Counted(j)
    && Authorised(l, j)
    && Derived(j, g)
    && Chained(initial, l, j, g)
  }

  ghost predicate TablesInv(initial: map<Uuid, Task>, t: Tables) {
    LedgerInv(t.ledger) && WorkInv(initial, t.ledger, t.journal, t.targets)
  }

  lemma StartTargets(initial: map<Uuid, Task>)
    requires WellFormedTasks(initial)
    ensures var t := EmptyTables(initial); Derived(t.journal, t.targets)
  {
  }

  lemma StartCoupled(initial: map<Uuid, Task>)
    requires CoupledTasks(initial)
    ensures Coupled(EmptyTables(initial).targets)
  {
  }

  lemma StartChained(initial: map<Uuid, Task>)
    ensures var t := EmptyTables(initial); Chained(initial, t.ledger, t.journal, t.targets)
  {
    var t := EmptyTables(initial);
    forall k <- initial
      ensures UnbrokenChain(Touching(t.ledger, t.journal, [], k), FirstVersion(initial, k), initial[k].version)
    {
    }
  }

  lemma StartInv(initial: map<Uuid, Task>)
    requires WellFormedTasks(initial)
    ensures TablesInv(initial, EmptyTables(initial))
  {
    StartTargets(initial);
    StartChained(initial);
  }

  // ---- create_or_get_proposal ----

  /** How a ledger may move: entries stay, with requester, command and payload; decisions stay. */
  ghost predicate Grows(l: Ledger, l': Ledger) {
    && (forall r <- l.proposals ::
          && r in l'.proposals
          && l'.proposals[r] == l.proposals[r].(status := l'.proposals[r].status)
          && (l.proposals[r].status == Pending || l'.proposals[r].status == l.proposals[r].status))
    && (forall r <- l.decisions :: r in l'.decisions && l'.decisions[r] == l.decisions[r])
    && (forall k <- l.idempotency :: k in l'.idempotency && l'.idempotency[k] == l.idempotency[k])
  }

  lemma GrowsTransitive(a: Ledger, b: Ledger, c: Ledger)
    requires Grows(a, b) && Grows(b, c)
    ensures Grows(a, c)
  {
  }

  lemma SupersedeKeepsRest(l: Ledger, prior: ProposalRef)
    requires DecidedApart(l) && Bound(l) && prior in l.proposals && l.proposals[prior].status == Pending
    ensures DecidedApart(SetStatus(l, prior, Superseded)) && Bound(SetStatus(l, prior, Superseded))
  {
  }

  lemma InsertKeepsRest(l: Ledger, d: Draft, ref: ProposalRef)
    requires DecidedApart(l) && Bound(l) && ref !in l.proposals
    ensures DecidedApart(Insert(l, d, ref)) && Bound(Insert(l, d, ref))
  {
  }

  /** Listed, but for the id about to be extended: there the latest version is superseded too. */
  ghost predicate Extensible(l: Ledger, id: Uuid) {
    forall r <- l.proposals ::
      && r.id in l.latest && 1 <= r.version <= l.latest[r.id] && l.proposals[r].ref == r
      && (l.proposals[r].status == Superseded <==> r.version < l.latest[r.id] || r.id == id)
  }

  lemma SupersedeMakesExtensible(l: Ledger, prior: ProposalRef)
    requires Listed(l) && prior in l.proposals && l.latest[prior.id] == prior.version
    ensures Extensible(SetStatus(l, prior, Superseded), prior.id)
  {
    var l' := SetStatus(l, prior, Superseded);
    forall r <- l'.proposals
      ensures l'.proposals[r].ref == r
      ensures l'.proposals[r].status == Superseded <==> r.version < l'.latest[r.id] || r.id == prior.id
    {
      assert r in l.proposals;
    }
  }

  lemma InsertKeepsListed(l: Ledger, d: Draft, ref: ProposalRef)
    requires Extensible(l, ref.id)
    requires ref.version == if ref.id in l.latest then l.latest[ref.id] + 1 else 1
    ensures ref !in l.proposals && Listed(Insert(l, d, ref))
  {
    var l' := Insert(l, d, ref);
    forall r <- l'.proposals
      ensures r.id in l'.latest && 1 <= r.version <= l'.latest[r.id] && l'.proposals[r].ref == r
      ensures l'.proposals[r].status == Superseded <==> r.version < l'.latest[r.id]
    {
      assert r == ref || r in l.proposals;
    }
  }

  lemma InsertKeepsDense(l: Ledger, d: Draft, ref: ProposalRef)
    requires Dense(l)
    requires ref.version == if ref.id in l.latest then l.latest[ref.id] + 1 else 1
    ensures Dense(Insert(l, d, ref))
  {
    var l' := Insert(l, d, ref);
    forall id, v | id in l'.latest && 1 <= v <= l'.latest[id]
      ensures ProposalRef(id, v) in l'.proposals
    {
      assert ProposalRef(id, v) == ref || ProposalRef(id, v) in l.proposals;
    }
  }

  lemma FirstVersionKeepsLedger(l: Ledger, d: Draft, drawn: Uuid)
    requires LedgerInv(l) && drawn !in l.latest
    ensures ProposalRef(drawn, 1) !in l.proposals && LedgerInv(Insert(l, d, ProposalRef(drawn, 1)))
  {
    var ref := ProposalRef(drawn, 1);
    InsertKeepsListed(l, d, ref);
    InsertKeepsDense(l, d, ref);
    InsertKeepsRest(l, d, ref);
  }

  lemma RevisionKeepsLedger(l: Ledger, d: Draft, prior: ProposalRef)
    requires LedgerInv(l) && Revisable(l, d.actor, prior)
    ensures var ref := ProposalRef(prior.id, prior.version + 1);
      ref !in l.proposals && LedgerInv(Insert(SetStatus(l, prior, Superseded), d, ref))
  {
    var ref := ProposalRef(prior.id, prior.version + 1);
    var l1 := SetStatus(l, prior, Superseded);
    SupersedeMakesExtensible(l, prior);
    SupersedeKeepsRest(l, prior);
    InsertKeepsListed(l1, d, ref);
    InsertKeepsDense(l1, d, ref);
    InsertKeepsRest(l1, d, ref);
  }

  lemma InsertGrows(l: Ledger, d: Draft, ref: ProposalRef)
    requires ref !in l.proposals && (d.actor, d.key) !in l.idempotency
    ensures Grows(l, Insert(l, d, ref))
  {
  }

  lemma SetStatusGrows(l: Ledger, ref: ProposalRef, status: ProposalStatus)
    requires ref in l.proposals && l.proposals[ref].status == Pending
    ensures Grows(l, SetStatus(l, ref, status))
  {
  }

  lemma CreateKeepsLedger(l: Ledger, d: Draft, drawn: Uuid)
    requires LedgerInv(l) && drawn !in l.latest
    ensures LedgerInv(CreateOrGet(l, d, drawn).0) && Grows(l, CreateOrGet(l, d, drawn).0)
  {
    hide Listed, Dense, LiveVersions, DecidedApart, Bound;
    if (d.actor, d.key) !in l.idempotency {
      if d.revises.None? {
        FirstVersionKeepsLedger(l, d, drawn);
        InsertGrows(l, d, ProposalRef(drawn, 1));
      } else if Revisable(l, d.actor, d.revises.value) {
        var prior := d.revises.value;
        var l1 := SetStatus(l, prior, Superseded);
        var ref := ProposalRef(prior.id, prior.version + 1);
        RevisionKeepsLedger(l, d, prior);
        SetStatusGrows(l, prior, Superseded);
        InsertGrows(l1, d, ref);
        GrowsTransitive(l, l1, Insert(l1, d, ref));
      }
    }
  }

  // ---- decide_once ----

  lemma ExpireKeepsLedger(l: Ledger, ref: ProposalRef)
    requires LedgerInv(l) && ref in l.proposals && l.proposals[ref].status == Pending
    ensures LedgerInv(SetStatus(l, ref, Expired))
  {
    var l' := SetStatus(l, ref, Expired);
    assert Listed(l') && Dense(l') && Bound(l');
    assert ref !in l.decisions;
  }

  lemma DecisionKeepsApart(l: Ledger, d: Decision, approval: Option<Approval>)
    requires DecidedApart(l) && d.ref in l.proposals && l.proposals[d.ref].status == Pending
    requires d.approver != l.proposals[d.ref].requester && WellIssued(d, approval)
    ensures DecidedApart(SetStatus(l, d.ref, d.status).(decisions := l.decisions[d.ref := StoredDecision(d, approval)]))
  {
    var l' := SetStatus(l, d.ref, d.status).(decisions := l.decisions[d.ref := StoredDecision(d, approval)]);
    forall r <- l'.decisions
      ensures r in l'.proposals && DecisionOf(l'.proposals[r], r, l'.decisions[r])
    {
      assert r == d.ref || r in l.decisions;
    }
  }

  lemma DecisionKeepsVersions(l: Ledger, d: Decision, approval: Option<Approval>)
    requires LiveVersions(l) && Bound(l) && d.ref in l.proposals && l.proposals[d.ref].status == Pending && d.Valid()
    ensures var l' := SetStatus(l, d.ref, d.status).(decisions := l.decisions[d.ref := StoredDecision(d, approval)]);
      LiveVersions(l') && Bound(l')
  {
  }

  lemma DecisionKeepsLedger(l: Ledger, d: Decision, approval: Option<Approval>)
    requires LedgerInv(l) && d.ref in l.proposals && l.proposals[d.ref].status == Pending
    requires d.approver != l.proposals[d.ref].requester && WellIssued(d, approval)
    ensures var l' := SetStatus(l, d.ref, d.status).(decisions := l.decisions[d.ref := StoredDecision(d, approval)]);
      LedgerInv(l') && Grows(l, l')
  {
    DecisionKeepsVersions(l, d, approval);
    DecisionKeepsApart(l, d, approval);
    assert d.ref !in l.decisions;
  }

  lemma DecideKeepsLedger(l: Ledger, d: Decision, approval: Option<Approval>, now: int)
    requires LedgerInv(l)
    requires d.ref in l.proposals && d.approver != l.proposals[d.ref].requester && WellIssued(d, approval)
    ensures LedgerInv(Decide(l, d, approval, now).0) && Grows(l, Decide(l, d, approval, now).0)
  {
    if l.proposals[d.ref].status == Pending {
      if now >= l.proposals[d.ref].expiresAt {
        ExpireKeepsLedger(l, d.ref);
        SetStatusGrows(l, d.ref, Expired);
      } else {
        DecisionKeepsLedger(l, d, approval);
      }
    }
  }

  // ---- a step of the ledger alone ----

  lemma {:induction false} TouchingFramed(l: Ledger, j: Journal, l': Ledger, j': Journal, order: seq<ProposalRef>, k: Uuid)
    requires forall r <- order :: r in l.proposals && r in l'.proposals && l.proposals[r].command == l'.proposals[r].command
    requires forall r <- order :: r in j.executions && r in j'.executions && j.executions[r] == j'.executions[r]
    ensures Touching(l, j, order, k) == Touching(l', j', order, k)
  {
    if order != [] {
      TouchingFramed(l, j, l', j', order[..|order| - 1], k);
    }
  }

  lemma LedgerStepKeepsInv(initial: map<Uuid, Task>, t: Tables, l': Ledger)
    requires TablesInv(initial, t) && LedgerInv(l') && Grows(t.ledger, l')
    ensures TablesInv(initial, t.(ledger := l'))
  {
    forall k <- t.targets.tasks
      ensures Touching(l', t.journal, t.journal.order, k) == Touching(t.ledger, t.journal, t.journal.order, k)
    {
      TouchingFramed(t.ledger, t.journal, l', t.journal, t.journal.order, k);
    }
  }

  // ---- execute_once ----

  /** What the workflow has established before the store executes a proposal. */
  predicate Executable(l: Ledger, p: Proposal, approval: Approval) {
    && p.ref in l.proposals && l.proposals[p.ref].command == p.command
    && p.ref in l.decisions && l.decisions[p.ref].receipt.status == Approved
    && l.decisions[p.ref].approval == Some(approval)
  }

  lemma FileKeepsOrdered(j: Journal, receipt: Receipt, nonce: NonceDigest)
    requires Ordered(j) && receipt.ref !in j.executions
    ensures Ordered(File(j, receipt, nonce))
  {
    var j' := File(j, receipt, nonce);
    assert receipt.ref !in j.order;
    forall r <- j'.executions
      ensures r in j'.order
    {
      assert r == receipt.ref || r in j.order;
    }
    assert receipt.ref == j'.order[|j.order|];
  }

  lemma FileKeepsCounted(j: Journal, e: Effect, ref: ProposalRef, nonce: NonceDigest, now: int)
    requires Counted(j) && ref !in j.executions && nonce !in j.nonces
    ensures Counted(File(j, ReceiptOf(ref, e, now), nonce))
  {
    FileKeepsOrdered(j, ReceiptOf(ref, e, now), nonce);
  }

  /** Created identities are new: nothing is overwritten. */
  lemma CreatedIdentitiesAreNew(j: Journal, g: Targets, ref: ProposalRef)
    requires Derived(j, g) && ref !in j.executions
    ensures Named(TaskName, ref) !in g.tasks && Named(RiskName, ref) !in g.risks && Named(RuleName, ref) !in g.rules
  {
  }

  lemma CreationKeepsTargets(j: Journal, j': Journal, g: Targets, c: Command, ref: ProposalRef)
    requires Derived(j, g) && ref !in j.executions && !c.Existing()
    requires j'.executions.Keys == j.executions.Keys + {ref}
    ensures var g' := ApplyCreation(g, c, ref).targets; Derived(j', g')
  {
    CreatedIdentitiesAreNew(j, g, ref);
  }

  lemma CreationKeepsCoupled(g: Targets, c: Command, ref: ProposalRef)
    requires Coupled(g) && !c.Existing()
    requires Named(TaskName, ref) !in g.tasks && Named(RiskName, ref) !in g.risks && Named(RuleName, ref) !in g.rules
    ensures Coupled(ApplyCreation(g, c, ref).targets)
  {
  }

  lemma UpdateKeepsCoupled(g: Targets, c: Command, ref: ProposalRef)
    requires Coupled(g) && c.Existing() && c.Valid() && ApplyToTask(g, c, ref).Ok?
    ensures Coupled(ApplyToTask(g, c, ref).value.targets)
  {
    var g' := ApplyToTask(g, c, ref).value.targets;
    var task := g.tasks[c.task];
    assert ConclusionRule(task) && LinkRule(c.task, task, g.risks);
    forall k <- g'.tasks
      ensures ConclusionRule(g'.tasks[k]) && LinkRule(k, g'.tasks[k], g'.risks)
    {
      if k != c.task {
        assert ConclusionRule(g.tasks[k]) && LinkRule(k, g.tasks[k], g.risks);
      }
    }
  }

  lemma ApplyKeepsTargets(j: Journal, j': Journal, g: Targets, c: Command, ref: ProposalRef)
    requires Derived(j, g) && ref !in j.executions && ApplyCommand(g, c, ref).Ok?
    requires j'.executions.Keys == j.executions.Keys + {ref}
    ensures var g' := ApplyCommand(g, c, ref).value.targets; Derived(j', g')
  {
    if !c.Existing() {
      CreationKeepsTargets(j, j', g, c, ref);
    }
  }

  /** Targets moved as a receipt says: the touched task by one version, every other task not at all. */
  ghost predicate Moves(g: Targets, g': Targets, c: Command, receipt: Receipt) {
    && receipt.after == receipt.before + 1
    && (c.Existing() ==> receipt.before == c.expected)
    && match Target(c, receipt.ref)
       case None => g'.tasks == g.tasks
       case Some(k) =>
         && k in g'.tasks
         && g'.tasks == g.tasks[k := g'.tasks[k]]
         && g'.tasks[k].version == receipt.after
         && receipt.before == if k in g.tasks then g.tasks[k].version else 0
  }

  lemma EffectMoves(j: Journal, g: Targets, c: Command, ref: ProposalRef, now: int)
    requires Derived(j, g) && ref !in j.executions && ApplyCommand(g, c, ref).Ok?
    ensures var e := ApplyCommand(g, c, ref).value; Moves(g, e.targets, c, ReceiptOf(ref, e, now))
  {
    CreatedIdentitiesAreNew(j, g, ref);
  }

  lemma {:induction false} UntouchedHasNoReceipts(l: Ledger, j: Journal, order: seq<ProposalRef>, k: Uuid)
    requires forall r <- order :: !Touches(l, j, r, k)
    ensures Touching(l, j, order, k) == []
  {
    if order != [] {
      UntouchedHasNoReceipts(l, j, order[..|order| - 1], k);
    }
  }

  /** A commit adds its receipt to the chain of the task it touches, and to no other. */
  lemma TouchingAfterCommit(l: Ledger, j: Journal, receipt: Receipt, nonce: NonceDigest, k: Uuid)
    requires Ordered(j) && receipt.ref in l.proposals && receipt.ref !in j.executions
    requires forall r <- j.executions :: r in l.proposals
    ensures var j' := File(j, receipt, nonce);
      Touching(l, j', j'.order, k) ==
        if Target(l.proposals[receipt.ref].command, receipt.ref) == Some(k) then Touching(l, j, j.order, k) + [receipt]
        else Touching(l, j, j.order, k)
  {
    var j' := File(j, receipt, nonce);
    assert j'.order[..|j'.order| - 1] == j.order;
    assert receipt.ref !in j.order;
    TouchingFramed(l, j, l, j', j.order, k);
  }

  lemma UnknownTaskHasNoReceipts(l: Ledger, j: Journal, g: Targets, k: Uuid)
    requires Ordered(j) && TargetsKnown(l, j, g) && k !in g.tasks
    ensures Touching(l, j, j.order, k) == []
  {
    forall r <- j.order
      ensures !Touches(l, j, r, k)
    {
    }
    UntouchedHasNoReceipts(l, j, j.order, k);
  }

  lemma CommitKeepsChain(initial: map<Uuid, Task>, l: Ledger, j: Journal, g: Targets, g': Targets, receipt: Receipt,
                         nonce: NonceDigest, k: Uuid)
    requires Ordered(j) && Chained(initial, l, j, g)
    requires receipt.ref in l.proposals && receipt.ref !in j.executions
    requires Moves(g, g', l.proposals[receipt.ref].command, receipt)
    requires k in g'.tasks
    ensures var j' := File(j, receipt, nonce);
      UnbrokenChain(Touching(l, j', j'.order, k), FirstVersion(initial, k), g'.tasks[k].version)
  {
    hide Touching, Touches, Ordered;
    assert forall r <- j.executions :: r in l.proposals;
    TouchingAfterCommit(l, j, receipt, nonce, k);
    if k !in g.tasks {
      UnknownTaskHasNoReceipts(l, j, g, k);
    }
    hide TargetsKnown;
  }

  lemma CommitKeepsChained(initial: map<Uuid, Task>, l: Ledger, j: Journal, g: Targets, g': Targets, receipt: Receipt,
                           nonce: NonceDigest)
    requires Ordered(j) && Chained(initial, l, j, g)
    requires receipt.ref in l.proposals && receipt.ref !in j.executions
    requires Moves(g, g', l.proposals[receipt.ref].command, receipt)
    ensures Chained(initial, l, File(j, receipt, nonce), g')
  {
    var j' := File(j, receipt, nonce);
    forall k <- g'.tasks
      ensures UnbrokenChain(Touching(l, j', j'.order, k), FirstVersion(initial, k), g'.tasks[k].version)
    {
      CommitKeepsChain(initial, l, j, g, g', receipt, nonce, k);
    }
  }

  lemma FileKeepsAuthorised(l: Ledger, j: Journal, p: Proposal, approval: Approval, receipt: Receipt)
    requires Authorised(l, j) && Executable(l, p, approval) && receipt.ref == p.ref
    ensures Authorised(l, File(j, receipt, approval.nonceDigest))
  {
  }

  lemma CommitKeepsWork(initial: map<Uuid, Task>, l: Ledger, j: Journal, g: Targets, p: Proposal, approval: Approval,
                        now: int)
    requires WellFormedTasks(initial) && WorkInv(initial, l, j, g)
    requires Executable(l, p, approval) && p.command.Valid()
    requires p.ref !in j.executions && approval.nonceDigest !in j.nonces && ApplyCommand(g, p.command, p.ref).Ok?
    ensures var e := ApplyCommand(g, p.command, p.ref).value;
      WorkInv(initial, l, File(j, ReceiptOf(p.ref, e, now), approval.nonceDigest), e.targets)
  {
    hide Ordered, Filed, Authorised, Derived, Chained;
    var e := ApplyCommand(g, p.command, p.ref).value;
    var receipt := ReceiptOf(p.ref, e, now);
    FileKeepsCounted(j, e, p.ref, approval.nonceDigest, now);
    FileKeepsAuthorised(l, j, p, approval, receipt);
    ApplyKeepsTargets(j, File(j, receipt, approval.nonceDigest), g, p.command, p.ref);
    EffectMoves(j, g, p.command, p.ref, now);
    CommitKeepsChained(initial, l, j, g, e.targets, receipt, approval.nonceDigest);
  }

  lemma ExecuteKeepsInv(initial: map<Uuid, Task>, t: Tables, p: Proposal, approval: Approval, now: int)
    requires WellFormedTasks(initial) && TablesInv(initial, t)
    requires Executable(t.ledger, p, approval) && p.command.Valid()
    ensures TablesInv(initial, Execute(t, p, approval, now).0)
  {
    hide LedgerInv, WorkInv;
    if p.ref !in t.journal.executions && approval.nonceDigest !in t.journal.nonces {
      if ApplyCommand(t.targets, p.command, p.ref).Ok? {
        CommitKeepsWork(initial, t.ledger, t.journal, t.targets, p, approval, now);
      }
    }
  }
}
