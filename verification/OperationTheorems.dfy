/** The promises of the controlled-operation workflow, over every run and every interleaving. */
module OperationTheorems {
  import opened Common
  import opened Operations
  import opened OperationStore
  import opened OperationWorkflow
  import opened OperationInvariants
  import opened OperationSafety

  // ---- exactly-once execution ----

  /** Any two execute calls that return for one proposal version, anywhere in a run, held the same
      grant and return the same receipt. */
  lemma ExactlyOnce(initial: map<Uuid, Task>, states: seq<System>, events: seq<Event>, i: nat, j: nat, a: nat, b: nat)
    requires WellFormedTasks(initial) && IsRun(initial, states, events) && i <= j < |states|
    requires a in states[i].calls && states[i].calls[a].ReceiptReturned?
    requires b in states[j].calls && states[j].calls[b].ReceiptReturned?
    requires states[i].calls[a].execution.ref == states[j].calls[b].execution.ref
    ensures states[i].calls[a] == states[j].calls[b]
  {
    RunInv(initial, states, events, i);
    RunInv(initial, states, events, j);
    RunMoves(initial, states, events, i, j);
    assert CallInv(states[i].tables.ledger, states[i].tables.journal, states[i].calls[a]);
    assert CallInv(states[j].tables.ledger, states[j].tables.journal, states[j].calls[b]);
  }

  /** A committed execution stays on record, unchanged, in every later state, under its approval. */
  lemma ExecutionsPersist(initial: map<Uuid, Task>, states: seq<System>, events: seq<Event>, i: nat, j: nat,
                          ref: ProposalRef)
    requires WellFormedTasks(initial) && IsRun(initial, states, events) && i <= j < |states|
    requires ref in states[i].tables.journal.executions
    ensures ref in states[j].tables.journal.executions
    ensures states[j].tables.journal.executions[ref] == states[i].tables.journal.executions[ref]
    ensures ref in states[j].tables.ledger.proposals && states[j].tables.ledger.proposals[ref].status == Approved
  {
    RunInv(initial, states, events, j);
    RunMoves(initial, states, events, i, j);
    var l := states[j].tables.ledger;
    assert ref in l.decisions;
    assert DecisionOf(l.proposals[ref], ref, l.decisions[ref]);
  }

  /** Executions, claimed nonces, business writes and audit records are equally many, one for one. */
  lemma CountsAgree(initial: map<Uuid, Task>, states: seq<System>, events: seq<Event>, i: nat)
    requires WellFormedTasks(initial) && IsRun(initial, states, events) && i < |states|
    ensures var j := states[i].tables.journal;
      && |j.executions| == |j.nonces| == j.writes == j.audits == j.claims
      && forall m, n | m in j.nonces && n in j.nonces && j.nonces[m] == j.nonces[n] :: m == n
  {
    RunInv(initial, states, events, i);
  }

  /** An execute call that raises has written nothing, and so has one whose lost answer was an error. */
  lemma FailedExecuteWritesNothing(t: Tables, p: Proposal, approval: Approval, now: int)
    ensures Execute(t, p, approval, now).1.Err? ==> Execute(t, p, approval, now).0 == t
  {
  }

  /** Once executed, a version is answered from the record to the holder of the issued grant, at any
      time, and to nobody else; the record is not executed again. */
  lemma LostResponseRecovered(initial: map<Uuid, Task>, states: seq<System>, events: seq<Event>, i: nat, a: nat, now: int)
    requires WellFormedTasks(initial) && IsRun(initial, states, events) && i < |states|
    requires a in states[i].calls && states[i].calls[a].AwaitingExecution?
    requires states[i].calls[a].proposal.ref in states[i].tables.journal.executions
    ensures Enabled(states[i], ReadExecution(a, now))
    ensures var c := states[i].calls[a];
      var j := states[i].tables.journal;
      var next := NextCall(states[i], ReadExecution(a, now));
      && c.proposal.ref in states[i].tables.ledger.decisions
      && if Some(c.grant) == states[i].tables.ledger.decisions[c.proposal.ref].receipt.grant then
        next == ReceiptReturned(c.grant, j.executions[c.proposal.ref])
      else next.Raised?
  {
    RunInv(initial, states, events, i);
    var c := states[i].calls[a];
    var l := states[i].tables.ledger;
    assert CallInv(l, states[i].tables.journal, c);
    assert DecisionOf(l.proposals[c.proposal.ref], c.proposal.ref, c.decision);
    if VerifyGrant(c.grant, c.decision.approval.value, c.actor, now).Ok? {
      VerifiedGrantIsIssued(c.grant, c.decision.receipt, c.decision.approval.value, c.actor, now);
    }
  }

  /** Before execution the same check lets through exactly the issued grant, before its expiry. */
  lemma OnlyIssuedGrantsExecute(initial: map<Uuid, Task>, states: seq<System>, events: seq<Event>, i: nat, a: nat, now: int)
    requires WellFormedTasks(initial) && IsRun(initial, states, events) && i < |states|
    requires a in states[i].calls && states[i].calls[a].AwaitingExecution?
    requires states[i].calls[a].proposal.ref !in states[i].tables.journal.executions
    requires states[i].calls[a].actor == states[i].calls[a].decision.receipt.approver
    ensures Enabled(states[i], ReadExecution(a, now))
    ensures var c := states[i].calls[a];
      && c.proposal.ref in states[i].tables.ledger.decisions
      && (NextCall(states[i], ReadExecution(a, now)).Executing? <==>
        states[i].tables.ledger.decisions[c.proposal.ref].receipt.grant == Some(c.grant) && now < c.grant.expiresAt)
  {
    RunInv(initial, states, events, i);
    var c := states[i].calls[a];
    var l := states[i].tables.ledger;
    assert CallInv(l, states[i].tables.journal, c);
    assert DecisionOf(l.proposals[c.proposal.ref], c.proposal.ref, c.decision);
    if VerifyGrant(c.grant, c.decision.approval.value, c.actor, now).Ok? {
      VerifiedGrantIsIssued(c.grant, c.decision.receipt, c.decision.approval.value, c.actor, now);
    }
  }

  // ---- optimistic version chain ----

  /** In commit order the receipts touching a task go from its first version to its current one, one
      version at a time. */
  lemma VersionChain(initial: map<Uuid, Task>, states: seq<System>, events: seq<Event>, i: nat, k: Uuid)
    requires WellFormedTasks(initial) && IsRun(initial, states, events) && i < |states|
    requires k in states[i].tables.targets.tasks
    ensures var t := states[i].tables;
      var rs := Touching(t.ledger, t.journal, t.journal.order, k);
      && |rs| == t.targets.tasks[k].version - FirstVersion(initial, k)
      && forall n | 0 <= n < |rs| ::
           rs[n].before == FirstVersion(initial, k) + n && rs[n].after == rs[n].before + 1
  {
    RunInv(initial, states, events, i);
  }

  /** Where the receipt of an execution stands in the chain of the task it touched. */
  lemma {:induction false} ChainPosition(l: Ledger, j: Journal, order: seq<ProposalRef>, n: nat, k: Uuid)
    requires n < |order| && Touches(l, j, order[n], k)
    ensures |Touching(l, j, order[..n], k)| < |Touching(l, j, order, k)|
    ensures Touching(l, j, order, k)[|Touching(l, j, order[..n], k)|] == j.executions[order[n]]
  {
    var shorter := order[..|order| - 1];
    if n < |order| - 1 {
      assert shorter[..n] == order[..n];
      ChainPosition(l, j, shorter, n, k);
    }
  }

  lemma {:induction false} ChainGrows(l: Ledger, j: Journal, order: seq<ProposalRef>, n: nat, m: nat, k: Uuid)
    requires n < m <= |order| && Touches(l, j, order[n], k)
    ensures |Touching(l, j, order[..n], k)| < |Touching(l, j, order[..m], k)|
  {
    assert order[..m][..n] == order[..n];
    ChainPosition(l, j, order[..m], n, k);
  }

  /** Of all proposals naming one version of one task, at most one is ever executed. */
  lemma AtMostOneExecutes(initial: map<Uuid, Task>, states: seq<System>, events: seq<Event>, i: nat,
                          a: ProposalRef, b: ProposalRef)
    requires WellFormedTasks(initial) && IsRun(initial, states, events) && i < |states|
    requires var t := states[i].tables;
      && a in t.journal.executions && b in t.journal.executions
      && a in t.ledger.proposals && b in t.ledger.proposals
      && var c, d := t.ledger.proposals[a].command, t.ledger.proposals[b].command;
         c.Existing() && d.Existing() && c.task == d.task && c.expected == d.expected
    ensures a == b
  {
    RunInv(initial, states, events, i);
    var t := states[i].tables;
    var k := t.ledger.proposals[a].command.task;
    var n :| 0 <= n < |t.journal.order| && t.journal.order[n] == a;
    var m :| 0 <= m < |t.journal.order| && t.journal.order[m] == b;
    ChainPosition(t.ledger, t.journal, t.journal.order, n, k);
    ChainPosition(t.ledger, t.journal, t.journal.order, m, k);
    if n < m {
      ChainGrows(t.ledger, t.journal, t.journal.order, n, m, k);
    } else if m < n {
      ChainGrows(t.ledger, t.journal, t.journal.order, m, n, k);
    }
  }

  /** A proposal that is unexecuted and names a version its task has passed. */
  predicate Stale(t: Tables, ref: ProposalRef) {
    && ref !in t.journal.executions && ref in t.ledger.proposals
    && var c := t.ledger.proposals[ref].command;
       c.Existing() && c.task in t.targets.tasks && t.targets.tasks[c.task].version > c.expected
  }

  lemma StaleStep(t: Tables, p: Proposal, approval: Approval, now: int, ref: ProposalRef)
    requires Stale(t, ref) && OnFile(t.ledger, p)
    ensures ref !in Execute(t, p, approval, now).0.journal.executions
  {
  }

  lemma StaleStays(t: Tables, t': Tables, ref: ProposalRef)
    requires Stale(t, ref) && TablesMove(t, t') && ref !in t'.journal.executions
    ensures Stale(t', ref)
  {
    var k := t.ledger.proposals[ref].command.task;
    assert TaskMoves(t.targets.tasks[k], t'.targets.tasks[k]);
  }

  /** A proposal naming a version its task has already passed can never execute in any later state. */
  lemma {:induction false} StaleNeverExecutes(initial: map<Uuid, Task>, states: seq<System>, events: seq<Event>,
                                              i: nat, j: nat, ref: ProposalRef)
    requires WellFormedTasks(initial) && IsRun(initial, states, events) && i <= j < |states|
    requires Stale(states[i].tables, ref)
    ensures Stale(states[j].tables, ref)
  {
    hide TablesMove, TablesInv, Stale;
    if i < j {
      StaleNeverExecutes(initial, states, events, i, j - 1, ref);
      RunInv(initial, states, events, j - 1);
      StepKeepsInv(initial, states[j - 1], events[j - 1]);
      StaleUnexecuted(initial, states[j - 1], events[j - 1], ref);
      StaleStays(states[j - 1].tables, states[j].tables, ref);
    }
  }

  lemma StaleUnexecuted(initial: map<Uuid, Task>, y: System, e: Event, ref: ProposalRef)
    requires SystemInv(initial, y) && Enabled(y, e) && Stale(y.tables, ref)
    ensures ref !in NextTables(y, e).journal.executions
  {
    hide TablesInv;
    if e.CommitExecute? {
      assert CallInv(y.tables.ledger, y.tables.journal, y.calls[e.id]);
      StaleStep(y.tables, y.calls[e.id].proposal, y.calls[e.id].verified, e.now, ref);
    }
  }

  // ---- tasks and their risks ----

  /** A task is never lost; a resolved task can only close; a closed one stays closed; its risk link never
      changes; and a final risk never changes if the tasks were coupled at the start. */
  lemma TaskLifeCycle(initial: map<Uuid, Task>, states: seq<System>, events: seq<Event>, i: nat, j: nat, k: Uuid)
    requires WellFormedTasks(initial) && IsRun(initial, states, events) && i <= j < |states|
    requires k in states[i].tables.targets.tasks
    ensures var g, g' := states[i].tables.targets, states[j].tables.targets;
      && k in g'.tasks
      && (g.tasks[k].status == Resolved ==> g'.tasks[k].status == Resolved || g'.tasks[k].status == Closed)
      && (g.tasks[k].status == Closed ==> g'.tasks[k].status == Closed)
      && g'.tasks[k].risk == g.tasks[k].risk
      && g.risks.Keys <= g'.risks.Keys
      && (CoupledTasks(initial) ==> forall r <- g.risks :: g.risks[r].status.Final? ==> g'.risks[r] == g.risks[r])
  {
    RunMoves(initial, states, events, i, j);
    if CoupledTasks(initial) {
      RunMovesRisks(initial, states, events, i, j);
    }
    assert TaskMoves(states[i].tables.targets.tasks[k], states[j].tables.targets.tasks[k]);
  }

  /** Conclusions sit on resolved and closed tasks, and on every closed one; a linked risk is under
      investigation at version 1 exactly while its task is not closed, final at version 2 after. */
  lemma TaskRiskCoupling(initial: map<Uuid, Task>, states: seq<System>, events: seq<Event>, i: nat, k: Uuid)
    requires CoupledTasks(initial) && IsRun(initial, states, events) && i < |states|
    requires k in states[i].tables.targets.tasks
    ensures var g := states[i].tables.targets;
      var task := g.tasks[k];
      && (task.conclusion.Some? ==> task.status == Resolved || task.status == Closed)
      && (task.status == Closed ==> task.conclusion.Some?)
      && (task.risk.Some? ==>
            && task.risk.value in g.risks
            && (g.risks[task.risk.value] == Risk(UnderInvestigation, 1) <==> task.status != Closed)
            && (g.risks[task.risk.value].status.Final? && g.risks[task.risk.value].version == 2 <==> task.status == Closed))
  {
    RunCoupled(initial, states, events, i);
    assert LinkRule(k, states[i].tables.targets.tasks[k], states[i].tables.targets.risks);
  }

  /** Distinct tasks link distinct risks, and every risk is linked by a task. */
  lemma RiskLinksAreOneToOne(initial: map<Uuid, Task>, states: seq<System>, events: seq<Event>, i: nat)
    requires CoupledTasks(initial) && IsRun(initial, states, events) && i < |states|
    ensures var g := states[i].tables.targets;
      && (forall k, m | k in g.tasks && m in g.tasks && g.tasks[k].risk.Some? && g.tasks[k].risk == g.tasks[m].risk :: k == m)
      && (forall r <- g.risks :: exists k :: k in g.tasks && g.tasks[k].risk == Some(r))
  {
    RunCoupled(initial, states, events, i);
    var g := states[i].tables.targets;
    forall k, m | k in g.tasks && m in g.tasks && g.tasks[k].risk.Some? && g.tasks[k].risk == g.tasks[m].risk
      ensures k == m
    {
      assert LinkRule(k, g.tasks[k], g.risks) && LinkRule(m, g.tasks[m], g.risks);
    }
  }

  lemma CreationOverwritesNothing(j: Journal, g: Targets, c: Command, ref: ProposalRef)
    requires Derived(j, g) && ref !in j.executions && !c.Existing()
    ensures Extends(g, ApplyCreation(g, c, ref).targets)
  {
    CreatedIdentitiesAreNew(j, g, ref);
  }

  ghost predicate Extends(g: Targets, g': Targets) {
    && (forall k <- g.tasks :: k in g'.tasks && g'.tasks[k] == g.tasks[k])
    && (forall k <- g.risks :: k in g'.risks && g'.risks[k] == g.risks[k])
    && (forall k <- g.rules :: k in g'.rules && g'.rules[k] == g.rules[k])
  }

  lemma ExecuteOverwritesNothing(t: Tables, p: Proposal, approval: Approval, now: int)
    requires Derived(t.journal, t.targets) && !p.command.Existing()
    ensures Extends(t.targets, Execute(t, p, approval, now).0.targets)
  {
    if p.ref !in t.journal.executions {
      CreationOverwritesNothing(t.journal, t.targets, p.command, p.ref);
    }
  }

  /** A step that creates a task, a risk or a rule leaves every entry already there as it was. */
  lemma NothingIsOverwritten(initial: map<Uuid, Task>, states: seq<System>, events: seq<Event>, i: nat)
    requires WellFormedTasks(initial) && IsRun(initial, states, events) && i < |events|
    requires Enabled(states[i], events[i]) && events[i].CommitExecute?
    requires !states[i].calls[events[i].id].proposal.command.Existing()
    ensures Extends(states[i].tables.targets, states[i + 1].tables.targets)
  {
    hide Extends, Derived, Chained, Authorised, Counted, LedgerInv;
    RunInv(initial, states, events, i);
    var c := states[i].calls[events[i].id];
    ExecuteOverwritesNothing(states[i].tables, c.proposal, c.verified, events[i].now);
  }

  // ---- proposals ----

  /** The versions of a proposal id are exactly 1..latest; all below the latest are superseded, without
      decision or execution; the latest is not superseded; a decision exists exactly for the approved
      and rejected, by another person than the requester. */
  lemma OneLiveVersion(initial: map<Uuid, Task>, states: seq<System>, events: seq<Event>, i: nat, id: Uuid, v: nat)
    requires WellFormedTasks(initial) && IsRun(initial, states, events) && i < |states|
    ensures var t := states[i].tables;
      var ref := ProposalRef(id, v);
      && (ref in t.ledger.proposals <==> id in t.ledger.latest && 1 <= v <= t.ledger.latest[id])
      && (ref in t.ledger.proposals ==>
            var status := t.ledger.proposals[ref].status;
            && (status == Superseded <==> v < t.ledger.latest[id])
            && (status == Approved || status == Rejected <==> ref in t.ledger.decisions)
            && (ref in t.ledger.decisions ==>
                  t.ledger.decisions[ref].receipt.approver != t.ledger.proposals[ref].requester)
            && (ref in t.journal.executions ==> status == Approved))
  {
    RunInv(initial, states, events, i);
    var l := states[i].tables.ledger;
    var ref := ProposalRef(id, v);
    if ref in l.decisions {
      assert DecisionOf(l.proposals[ref], ref, l.decisions[ref]);
    }
  }

  /** Proposing again under a key already bound files nothing: it returns the bound proposal when the
      payload is the same, and raises otherwise. */
  lemma ProposeIsIdempotent(initial: map<Uuid, Task>, states: seq<System>, events: seq<Event>, i: nat, d: Draft, drawn: Uuid)
    requires WellFormedTasks(initial) && IsRun(initial, states, events) && i < |states|
    requires (d.actor, d.key) in states[i].tables.ledger.idempotency
    ensures var l := states[i].tables.ledger;
      var (l', r) := CreateOrGet(l, d, drawn);
      && l' == l
      && (r.Ok? <==> l.idempotency[(d.actor, d.key)].payload == d.payload)
      && (r.Ok? ==>
            && r.value.ref == l.idempotency[(d.actor, d.key)].ref
            && r.value.requester == d.actor && r.value.payload == d.payload)
  {
    RunInv(initial, states, events, i);
  }
}
