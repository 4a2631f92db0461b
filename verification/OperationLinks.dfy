/** When closing a task finds its linked risk: the one dictionary lookup of the store that can fail. */
module OperationLinks {
  import opened Common
  import opened Operations
  import opened OperationStore
  import opened OperationWorkflow

  // ---- no lookup fails while links of open tasks are known ----

  /** A task that can still be closed links a risk on file, or none. */
  predicate LinksKnown(g: Targets) {
    forall k <- g.tasks :: g.tasks[k].risk.Some? && g.tasks[k].status != Closed ==> g.tasks[k].risk.value in g.risks
  }

  predicate LedgerOk(l: Ledger) {
    && (forall k <- l.idempotency :: l.idempotency[k].ref in l.proposals)
    && (forall r <- l.proposals :: l.proposals[r].command.Valid())
  }

  predicate CallOk(c: Call) {
    match c
    case Proposing(d) => d.command.Valid()
    case AwaitingDecision(_, _, p) => p.command.Valid()
    case AwaitingExecution(_, _, p, _) => p.command.Valid()
    case Executing(_, p, _) => p.command.Valid()
    case Raised(e) => e != MissingKey
    case _ => true
  }

  predicate LinkInv(y: System) {
    && LinksKnown(y.tables.targets) && LedgerOk(y.tables.ledger)
    && forall id <- y.calls :: CallOk(y.calls[id])
  }

  lemma ApplyFindsLink(g: Targets, c: Command, ref: ProposalRef)
    requires LinksKnown(g) && c.Valid()
    ensures ApplyCommand(g, c, ref) != Err(MissingKey)
    ensures ApplyCommand(g, c, ref).Ok? ==> LinksKnown(ApplyCommand(g, c, ref).value.targets)
  {
  }

  lemma CreateKeepsLedgerOk(l: Ledger, d: Draft, drawn: Uuid)
    requires LedgerOk(l) && d.command.Valid()
    ensures LedgerOk(CreateOrGet(l, d, drawn).0) && CreateOrGet(l, d, drawn).1 != Err(MissingKey)
  {
  }

  lemma DecideKeepsLedgerOk(l: Ledger, d: Decision, approval: Option<Approval>, now: int)
    requires LedgerOk(l)
    ensures LedgerOk(Decide(l, d, approval, now).0) && Decide(l, d, approval, now).1 != Err(MissingKey)
  {
  }

  lemma ExecuteFindsLink(t: Tables, p: Proposal, approval: Approval, now: int)
    requires LinksKnown(t.targets) && p.command.Valid()
    ensures var (t', r) := Execute(t, p, approval, now);
      LinksKnown(t'.targets) && t'.ledger == t.ledger && r != Err(MissingKey)
  {
    ApplyFindsLink(t.targets, p.command, p.ref);
    hide LinksKnown, ApplyCommand;
  }

  lemma StepKeepsLinks(y: System, e: Event)
    requires LinkInv(y) && Enabled(y, e)
    ensures LinkInv(Next(y, e))
  {
    var t := NextTables(y, e);
    assert LinksKnown(t.targets) && LedgerOk(t.ledger) && CallOk(NextCall(y, e)) by {
      if e.CommitPropose? {
        CreateKeepsLedgerOk(y.tables.ledger, y.calls[e.id].draft, e.drawn);
        hide LinksKnown, LedgerOk, CreateOrGet;
      } else if e.CommitDecide? {
        DecideKeepsLedgerOk(y.tables.ledger, y.calls[e.id].receipt, y.calls[e.id].approval, e.now);
        hide LinksKnown, LedgerOk, Decide;
      } else if e.CommitExecute? {
        ExecuteFindsLink(y.tables, y.calls[e.id].proposal, y.calls[e.id].verified, e.now);
        hide LinksKnown, LedgerOk, Execute;
      } else {
        assert e.ReadDecision? || e.ReadExecution? ==> CallOk(y.calls[e.id]);
        hide LinksKnown;
      }
    }
  }

  /** Tasks a store may be given without ever missing a risk: those that link one are closed. */
  predicate LinkedAreClosed(tasks: map<Uuid, Task>) {
    forall k <- tasks :: tasks[k].risk.Some? ==> tasks[k].status == Closed
  }

  /** No call of any run from such tasks ever fails on a missing dictionary entry. */
  lemma {:induction false} NoKeyIsMissing(initial: map<Uuid, Task>, states: seq<System>, events: seq<Event>, i: nat)
    requires LinkedAreClosed(initial) && IsRun(initial, states, events) && i < |states|
    ensures LinkInv(states[i])
    ensures forall a <- states[i].calls :: states[i].calls[a] != Raised(MissingKey)
  {
    if i > 0 {
      hide LinkInv;
      NoKeyIsMissing(initial, states, events, i - 1);
      StepKeepsLinks(states[i - 1], events[i - 1]);
    }
    assert LinkInv(states[i]);
  }

  // ---- and only then: a run that closes such a task ----

  ghost predicate Reaches(initial: map<Uuid, Task>, y: System) {
    exists states, events :: IsRun(initial, states, events) && states[|states| - 1] == y
  }

  lemma ReachesStart(initial: map<Uuid, Task>)
    ensures Reaches(initial, Start(initial))
  {
    assert IsRun(initial, [Start(initial)], []);
  }

  lemma ReachesNext(initial: map<Uuid, Task>, y: System, e: Event)
    requires Reaches(initial, y) && Enabled(y, e)
    ensures Reaches(initial, Next(y, e))
  {
    hide Enabled, Next;
    var states, events :| IsRun(initial, states, events) && states[|states| - 1] == y;
    var states', events' := states + [Next(y, e)], events + [e];
    forall i | 0 <= i < |events'|
      ensures Enabled(states'[i], events'[i]) && states'[i + 1] == Next(states'[i], events'[i])
    {
      assert i < |events| ==> states'[i] == states[i] && events'[i] == events[i] && states'[i + 1] == states[i + 1];
    }
    assert IsRun(initial, states', events');
  }

  /** Call ids, draws, keys and nonces from `n` on are unused. */
  predicate Unused(y: System, n: nat) {
    && (forall id <- y.calls :: id < n)
    && (forall u <- y.tables.ledger.latest :: u.Random? ==> u.n < n)
    && (forall k <- y.tables.ledger.idempotency :: |k.1| < n)
    && (forall r <- y.tables.journal.executions :: r.id.Random? ==> r.id.n < n)
    && (forall d <- y.tables.journal.nonces :: d.nonce < n)
  }

  function KeyOf(n: nat): (key: string)
    ensures |key| == n
  {
    seq(n, i => 'k')
  }

  function RefOf(n: nat): ProposalRef {
    ProposalRef(Random(n), 1)
  }

  function ProposalOf(n: nat, c: Command): Proposal
    requires c.Existing()
  {
    Proposal(RefOf(n), Pending, 0, c, PayloadDigest(c, c.expected), 0, PROPOSAL_LIFETIME)
  }

  /** Between two operations on tasks: what the next one, `c` under number `n`, needs. */
  predicate Ready(y: System, n: nat, c: Command) {
    && Unused(y, n) && c.Existing() && c.Valid()
    && c.task in y.tables.targets.tasks && y.tables.targets.tasks[c.task].version == c.expected
  }

  lemma Proposes(initial: map<Uuid, Task>, y: System, n: nat, c: Command) returns (z: System)
    requires Reaches(initial, y) && Ready(y, n, c)
    ensures Reaches(initial, z) && z.tables.targets == y.tables.targets && z.tables.journal == y.tables.journal
    ensures RefOf(n) in z.tables.ledger.proposals && z.tables.ledger.proposals[RefOf(n)] == ProposalOf(n, c)
    ensures z.tables.ledger.latest == y.tables.ledger.latest[Random(n) := 1]
    ensures z.tables.ledger.idempotency.Keys == y.tables.ledger.idempotency.Keys + {(0, KeyOf(n))}
    ensures z.calls.Keys == y.calls.Keys + {n}
  {
    var e := BeginPropose(n, 0, Analyst, KeyOf(n), c, None, 0);
    var w := Next(y, e);
    var draft := Draft(0, KeyOf(n), c, PayloadDigest(c, c.expected), None, 0, PROPOSAL_LIFETIME);
    assert w.calls[n] == Proposing(draft) && w.tables == y.tables;
    ReachesNext(initial, y, e);
    var f := CommitPropose(n, Random(n), false);
    assert Enabled(w, f);
    assert (0, KeyOf(n)) !in y.tables.ledger.idempotency;
    z := Next(w, f);
    ReachesNext(initial, w, f);
  }

  function GrantOf(n: nat, c: Command): Grant
    requires c.Existing()
  {
    IssueGrant(ProposalOf(n, c), 1, n, 0, 0)
  }

  function DecisionOf(n: nat, c: Command): StoredDecision
    requires c.Existing()
  {
    StoredDecision(Decision(RefOf(n), ProposalStatus.Approved, 1, 0, Some(GrantOf(n, c))), Some(ApprovalFor(GrantOf(n, c))))
  }

  lemma Approves(initial: map<Uuid, Task>, y: System, n: nat, c: Command) returns (z: System)
    requires Reaches(initial, y) && c.Existing() && n + 1 !in y.calls
    requires RefOf(n) in y.tables.ledger.proposals && y.tables.ledger.proposals[RefOf(n)] == ProposalOf(n, c)
    ensures Reaches(initial, z) && z.tables.targets == y.tables.targets && z.tables.journal == y.tables.journal
    ensures RefOf(n) in z.tables.ledger.proposals
    ensures z.tables.ledger.proposals[RefOf(n)] == ProposalOf(n, c).(status := ProposalStatus.Approved)
    ensures RefOf(n) in z.tables.ledger.decisions && z.tables.ledger.decisions[RefOf(n)] == DecisionOf(n, c)
    ensures z.tables.ledger.latest == y.tables.ledger.latest
    ensures z.tables.ledger.idempotency == y.tables.ledger.idempotency
    ensures z.calls.Keys == y.calls.Keys + {n + 1}
  {
    var e := BeginDecide(n + 1, 1, Approver, RefOf(n), true, n, 0, 0);
    var w := Next(y, e);
    assert w.calls[n + 1] == Deciding(DecisionOf(n, c).receipt, DecisionOf(n, c).approval) && w.tables == y.tables;
    ReachesNext(initial, y, e);
    var f := CommitDecide(n + 1, 0, false);
    z := Next(w, f);
    ReachesNext(initial, w, f);
  }

  /** What the approver's call needs to find. */
  predicate Approved(y: System, n: nat, c: Command) {
    && c.Existing()
    && RefOf(n) in y.tables.ledger.proposals
    && y.tables.ledger.proposals[RefOf(n)] == ProposalOf(n, c).(status := ProposalStatus.Approved)
    && RefOf(n) in y.tables.ledger.decisions && y.tables.ledger.decisions[RefOf(n)] == DecisionOf(n, c)
    && RefOf(n) !in y.tables.journal.executions && NonceDigest(n) !in y.tables.journal.nonces
  }

  /** The execute call up to its commit. */
  lemma Verifies(initial: map<Uuid, Task>, y: System, n: nat, c: Command) returns (z: System)
    requires Reaches(initial, y) && Approved(y, n, c) && n + 2 !in y.calls
    ensures Reaches(initial, z) && z.tables == y.tables && z.calls.Keys == y.calls.Keys + {n + 2}
    ensures z.calls[n + 2]
      == Executing(GrantOf(n, c), ProposalOf(n, c).(status := ProposalStatus.Approved), ApprovalFor(GrantOf(n, c)))
  {
    var p, g, d := ProposalOf(n, c).(status := ProposalStatus.Approved), GrantOf(n, c), DecisionOf(n, c);
    var e1 := BeginExecute(n + 2, 1, Approver, g);
    var y1 := Next(y, e1);
    assert y1.tables == y.tables && y1.calls[n + 2] == AwaitingDecision(1, g, p);
    ReachesNext(initial, y, e1);
    var e2 := ReadDecision(n + 2);
    var y2 := Next(y1, e2);
    assert y2.tables == y.tables && y2.calls[n + 2] == AwaitingExecution(1, g, p, d);
    ReachesNext(initial, y1, e2);
    var e3 := ReadExecution(n + 2, 0);
    z := Next(y2, e3);
    ReachesNext(initial, y2, e3);
  }

  lemma Executes(initial: map<Uuid, Task>, y: System, n: nat, c: Command) returns (z: System)
    requires Reaches(initial, y) && Approved(y, n, c) && n + 2 !in y.calls
    ensures Reaches(initial, z) && z.tables.ledger == y.tables.ledger
    ensures z.calls.Keys == y.calls.Keys + {n + 2}
    ensures z.tables.journal.executions.Keys <= y.tables.journal.executions.Keys + {RefOf(n)}
    ensures z.tables.journal.nonces.Keys <= y.tables.journal.nonces.Keys + {NonceDigest(n)}
    ensures var applied := ApplyToTask(y.tables.targets, c, RefOf(n));
      && (applied.Ok? ==> z.tables.targets == applied.value.targets)
      && (applied.Err? ==> z.calls[n + 2] == Raised(applied.error))
  {
    hide ApplyToTask, Reaches;
    var x := Verifies(initial, y, n, c);
    var e := CommitExecute(n + 2, 0, false);
    z := Next(x, e);
    ReachesNext(initial, x, e);
  }

  /** One operation on a task, carried out from proposal to execution by an analyst and an approver. */
  lemma Operates(initial: map<Uuid, Task>, y: System, n: nat, c: Command) returns (z: System)
    requires Reaches(initial, y) && Ready(y, n, c)
    ensures Reaches(initial, z) && Unused(z, n + 3) && n + 2 in z.calls
    ensures var applied := ApplyToTask(y.tables.targets, c, RefOf(n));
      && (applied.Ok? ==> z.tables.targets == applied.value.targets)
      && (applied.Err? ==> z.calls[n + 2] == Raised(applied.error))
  {
    hide Reaches, ApplyToTask, KeyOf;
    var w := Proposes(initial, y, n, c);
    var x := Approves(initial, w, n, c);
    z := Executes(initial, x, n, c);
  }

  predicate CanMiss(g: Targets, k: Uuid) {
    k in g.tasks && g.tasks[k].risk.Some? && g.tasks[k].status != Closed && g.risks == map[]
  }

  /** How many operations a task is from being closed, short of the closing one. */
  function Distance(task: Task): nat {
    match task.status
    case Open => 3
    case InProgress => 2
    case Blocked => 2
    case Resolved => if task.conclusion.None? then 1 else 0
    case Closed => 0
  }

  /** The next operation towards closing. */
  function Towards(k: Uuid, task: Task): Command {
    match task.status
    case Open => Transition(k, task.version, Open, InProgress)
    case InProgress => Transition(k, task.version, InProgress, Resolved)
    case Blocked => Transition(k, task.version, Blocked, Resolved)
    case _ =>
      if task.conclusion.None? then AddConclusion(k, task.version)
      else Close(k, task.version, task.conclusion.value, Some(Dismissed))
  }

  /** It brings the task nearer, and the closing one misses the risk. */
  lemma TowardsApplies(g: Targets, k: Uuid, ref: ProposalRef)
    requires CanMiss(g, k)
    ensures Towards(k, g.tasks[k]).Existing() && Towards(k, g.tasks[k]).Valid()
    ensures Towards(k, g.tasks[k]).task == k && Towards(k, g.tasks[k]).expected == g.tasks[k].version
    ensures var r := ApplyToTask(g, Towards(k, g.tasks[k]), ref);
      if Distance(g.tasks[k]) == 0 then r == Err(MissingKey)
      else r.Ok? && CanMiss(r.value.targets, k) && Distance(r.value.targets.tasks[k]) < Distance(g.tasks[k])
  {
  }

  lemma {:induction false} ReachesMissing(initial: map<Uuid, Task>, y: System, n: nat, k: Uuid) returns (z: System, a: nat)
    requires Reaches(initial, y) && Unused(y, n) && CanMiss(y.tables.targets, k)
    ensures Reaches(initial, z) && a in z.calls && z.calls[a] == Raised(MissingKey)
    decreases Distance(y.tables.targets.tasks[k])
  {
    hide Reaches, Unused, ApplyToTask, Towards;
    var g := y.tables.targets;
    TowardsApplies(g, k, RefOf(n));
    z := Operates(initial, y, n, Towards(k, g.tasks[k]));
    a := n + 2;
    if Distance(g.tasks[k]) > 0 {
      z, a := ReachesMissing(initial, z, n + 3, k);
    }
  }

  /** Some run from these tasks fails on a missing entry exactly when some task that links a risk is not
      closed: the store is told of tasks at its start but of no risks. */
  lemma MissingKeyExactly(initial: map<Uuid, Task>)
    ensures (exists y, a :: Reaches(initial, y) && a in y.calls && y.calls[a] == Raised(MissingKey))
      <==> !LinkedAreClosed(initial)
  {
    if LinkedAreClosed(initial) {
      forall y, a | Reaches(initial, y) && a in y.calls
        ensures y.calls[a] != Raised(MissingKey)
      {
        var states, events :| IsRun(initial, states, events) && states[|states| - 1] == y;
        NoKeyIsMissing(initial, states, events, |states| - 1);
      }
    } else {
      var k :| k in initial && initial[k].risk.Some? && initial[k].status != Closed;
      ReachesStart(initial);
      var z, a := ReachesMissing(initial, Start(initial), 0, k);
      assert Reaches(initial, z) && a in z.calls && z.calls[a] == Raised(MissingKey);
    }
  }
}
