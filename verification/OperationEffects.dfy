/** What tasks, risks and rules are, told from the executed commands in commit order. */
module OperationEffects {
  import opened Common
  import opened Operations
  import opened OperationStore
  import opened OperationWorkflow
  import opened OperationInvariants
  import opened OperationSafety

  /** What a command can settle of the task it touches. */
  datatype Aspect = Creation | Status | Assignee | Conclusion | Closure

  predicate Creates(c: Command) {
    c.OpenSellerRiskCase? || c.CreateTask? || c.CreateTaskFromAlertHit?
  }

  predicate Settles(c: Command, a: Aspect) {
    match a
    case Creation => Creates(c)
    case Status => Creates(c) || c.Transition? || c.Close?
    case Assignee => c.Assign?
    case Conclusion => c.AddConclusion?
    case Closure => c.Close?
  }

  /** The last executed command that touched task `k` and settled the aspect. */
  function Last(l: Ledger, j: Journal, order: seq<ProposalRef>, k: Uuid, a: Aspect): (last: Option<ProposalRef>)
    ensures last.Some? ==>
      && last.value in order && Touches(l, j, last.value, k) && Settles(l.proposals[last.value].command, a)
  {
    if order == [] then None
    else
      var n := |order| - 1;
      if Touches(l, j, order[n], k) && Settles(l.proposals[order[n]].command, a) then Some(order[n])
      else Last(l, j, order[..n], k, a)
  }

  function LastCommand(l: Ledger, j: Journal, k: Uuid, a: Aspect): Option<Command> {
    var last := Last(l, j, j.order, k, a);
    if last.Some? then Some(l.proposals[last.value].command) else None
  }

  /** A task is what the last commands on it named, and otherwise what it was at the start. */
  ghost predicate TaskTold(initial: map<Uuid, Task>, l: Ledger, j: Journal, k: Uuid, task: Task) {
    && StatusTold(initial, LastCommand(l, j, k, Status), k, task)
    && AssigneeTold(initial, LastCommand(l, j, k, Assignee), k, task)
    && ConclusionTold(initial, Last(l, j, j.order, k, Conclusion), k, task)
    && OriginTold(initial, Last(l, j, j.order, k, Creation), LastCommand(l, j, k, Creation), k, task)
  }

  predicate StatusTold(initial: map<Uuid, Task>, last: Option<Command>, k: Uuid, task: Task) {
    match last
    case None => k in initial && task.status == initial[k].status
    case Some(c) =>
      && (Creates(c) ==> task.status == Open)
      && (c.Transition? ==> task.status == c.toStatus)
      && (c.Close? ==> task.status == Closed)
  }

  predicate AssigneeTold(initial: map<Uuid, Task>, last: Option<Command>, k: Uuid, task: Task) {
    match last
    case None => task.assignee == if k in initial then initial[k].assignee else None
    case Some(c) => c.Assign? && task.assignee == Some(c.assignee)
  }

  predicate ConclusionTold(initial: map<Uuid, Task>, last: Option<ProposalRef>, k: Uuid, task: Task) {
    match last
    case None => task.conclusion == if k in initial then initial[k].conclusion else None
    case Some(ref) => task.conclusion == Some(ConclusionOf(ref))
  }

  /** Priority, summary and risk link come from the creating command and never change. */
  predicate OriginTold(initial: map<Uuid, Task>, ref: Option<ProposalRef>, created: Option<Command>, k: Uuid, task: Task) {
    match created
    case None =>
      k in initial && task.priority == initial[k].priority && task.summary == initial[k].summary
      && task.risk == initial[k].risk
    case Some(c) =>
      && Creates(c) && task.priority == c.priority
      && (c.CreateTask? ==> task.summary == c.summary)
      && (c.CreateTaskFromAlertHit? ==> task.summary == "Created from a reviewed alert hit.")
      && (c.OpenSellerRiskCase? ==> task.summary == "Seller risk requires investigation.")
      && (c.OpenSellerRiskCase? ==> ref.Some? && task.risk == Some(Named(RiskName, ref.value)))
      && (task.risk.Some? ==> c.OpenSellerRiskCase?)
  }

  /** The risk of a case is final with the disposition its closing command named, and under investigation
      until there is one. */
  predicate RiskTold(closing: Option<Command>, risk: Risk) {
    match closing
    case None => risk.status == UnderInvestigation
    case Some(c) => c.Close? && c.disposition.Some? && risk.status == Final(c.disposition.value)
  }

  ghost predicate TasksTold(initial: map<Uuid, Task>, t: Tables) {
    forall k <- t.targets.tasks :: TaskTold(initial, t.ledger, t.journal, k, t.targets.tasks[k])
  }

  ghost predicate RisksTold(t: Tables) {
    forall r <- t.targets.risks :: r.Named? && RiskTold(LastCommand(t.ledger, t.journal, Named(TaskName, r.of), Closure), t.targets.risks[r])
  }

  predicate ExecutedAs(t: Tables, ref: ProposalRef, c: Command) {
    ref in t.journal.executions && ref in t.ledger.proposals && t.ledger.proposals[ref].command == c
  }

  /** What executions have created, and nothing else: the tasks of the start and those of creating commands,
      the risks of risk cases, the rules of rule commands. */
  ghost predicate CreatedExactly(initial: map<Uuid, Task>, t: Tables) {
    forall k :: CreatedHere(initial, t, k)
  }

  predicate CreatedHere(initial: map<Uuid, Task>, t: Tables, k: Uuid) {
    && (k in t.targets.tasks <==> k in initial || (k.Named? && k.space == TaskName && ByCommand(t, k.of, Creation)))
    && (k in t.targets.risks <==> k.Named? && k.space == RiskName && OpensCase(t, k.of))
    && (k in t.targets.rules <==> k.Named? && k.space == RuleName && CreatesRule(t, k.of))
  }

  predicate ByCommand(t: Tables, ref: ProposalRef, a: Aspect) {
    ref in t.journal.executions && ref in t.ledger.proposals && Settles(t.ledger.proposals[ref].command, a)
  }

  predicate OpensCase(t: Tables, ref: ProposalRef) {
    ref in t.journal.executions && ref in t.ledger.proposals && t.ledger.proposals[ref].command.OpenSellerRiskCase?
  }

  predicate CreatesRule(t: Tables, ref: ProposalRef) {
    ref in t.journal.executions && ref in t.ledger.proposals && t.ledger.proposals[ref].command.CreateAlertRule?
  }

  // ---- the last command after one step ----

  lemma {:induction false} LastFramed(l: Ledger, j: Journal, l': Ledger, j': Journal, order: seq<ProposalRef>, k: Uuid, a: Aspect)
    requires forall r <- order ::
      && r in l.proposals && r in l'.proposals && l'.proposals[r].command == l.proposals[r].command
      && r in j.executions && r in j'.executions
    ensures Last(l', j', order, k, a) == Last(l, j, order, k, a)
  {
    if order != [] {
      LastFramed(l, j, l', j', order[..|order| - 1], k, a);
    }
  }

  lemma LastAfterCommit(l: Ledger, j: Journal, receipt: Receipt, nonce: NonceDigest, k: Uuid, a: Aspect)
    requires Ordered(j) && receipt.ref in l.proposals && receipt.ref !in j.executions
    requires forall r <- j.executions :: r in l.proposals
    ensures var j', c := File(j, receipt, nonce), l.proposals[receipt.ref].command;
      Last(l, j', j'.order, k, a) ==
        if Target(c, receipt.ref) == Some(k) && Settles(c, a) then Some(receipt.ref) else Last(l, j, j.order, k, a)
  {
    var j' := File(j, receipt, nonce);
    assert j'.order[..|j'.order| - 1] == j.order;
    LastFramed(l, j, l, j', j.order, k, a);
  }

  /** No command has touched a task that is not there. */
  lemma {:induction false} LastOfUnknown(l: Ledger, j: Journal, g: Targets, order: seq<ProposalRef>, k: Uuid, a: Aspect)
    requires TargetsKnown(l, j, g) && k !in g.tasks
    ensures Last(l, j, order, k, a) == None
  {
    if order != [] {
      LastOfUnknown(l, j, g, order[..|order| - 1], k, a);
    }
  }

  // ---- steps that leave the journal alone ----

  lemma LastUnmoved(t: Tables, l': Ledger, k: Uuid, a: Aspect)
    requires Grows(t.ledger, l') && Ordered(t.journal) && TargetsKnown(t.ledger, t.journal, t.targets)
    ensures Last(l', t.journal, t.journal.order, k, a) == Last(t.ledger, t.journal, t.journal.order, k, a)
    ensures LastCommand(l', t.journal, k, a) == LastCommand(t.ledger, t.journal, k, a)
  {
    LastFramed(t.ledger, t.journal, l', t.journal, t.journal.order, k, a);
  }

  lemma LedgerKeepsTasks(initial: map<Uuid, Task>, t: Tables, l': Ledger)
    requires Grows(t.ledger, l') && Ordered(t.journal) && TargetsKnown(t.ledger, t.journal, t.targets)
    requires TasksTold(initial, t)
    ensures TasksTold(initial, t.(ledger := l'))
  {
    hide Last, LastCommand, StatusTold, AssigneeTold, ConclusionTold, OriginTold, Grows, TargetsKnown, Ordered;
    forall k <- t.targets.tasks
      ensures TaskTold(initial, l', t.journal, k, t.targets.tasks[k])
    {
      LastUnmoved(t, l', k, Status);
      LastUnmoved(t, l', k, Assignee);
      LastUnmoved(t, l', k, Conclusion);
      LastUnmoved(t, l', k, Creation);
    }
  }

  lemma LedgerKeepsRisks(t: Tables, l': Ledger)
    requires Grows(t.ledger, l') && Ordered(t.journal) && TargetsKnown(t.ledger, t.journal, t.targets) && RisksTold(t)
    ensures RisksTold(t.(ledger := l'))
  {
    hide Last, LastCommand, RiskTold, Grows, TargetsKnown, Ordered;
    forall r <- t.targets.risks
      ensures r.Named? && RiskTold(LastCommand(l', t.journal, Named(TaskName, r.of), Closure), t.targets.risks[r])
    {
      LastUnmoved(t, l', Named(TaskName, r.of), Closure);
    }
  }

  lemma LedgerKeepsCreated(initial: map<Uuid, Task>, t: Tables, l': Ledger)
    requires Grows(t.ledger, l') && TargetsKnown(t.ledger, t.journal, t.targets) && CreatedExactly(initial, t)
    ensures CreatedExactly(initial, t.(ledger := l'))
  {
    hide CreatedHere, Grows, TargetsKnown;
    forall k
      ensures CreatedHere(initial, t.(ledger := l'), k)
    {
      LedgerKeepsCreatedHere(initial, t, l', k);
    }
  }

  lemma LedgerKeepsCreatedHere(initial: map<Uuid, Task>, t: Tables, l': Ledger, k: Uuid)
    requires Grows(t.ledger, l') && TargetsKnown(t.ledger, t.journal, t.targets) && CreatedHere(initial, t, k)
    ensures CreatedHere(initial, t.(ledger := l'), k)
  {
    var t' := t.(ledger := l');
    if k.Named? {
      assert ByCommand(t', k.of, Creation) == ByCommand(t, k.of, Creation);
      assert OpensCase(t', k.of) == OpensCase(t, k.of);
      assert CreatesRule(t', k.of) == CreatesRule(t, k.of);
      hide ByCommand, OpensCase, CreatesRule, Grows, TargetsKnown;
    }
  }

  // ---- a commit ----

  /** The last commands on `k` after a commit, aspect by aspect. */
  ghost predicate LastMoves(l: Ledger, j: Journal, j': Journal, c: Command, ref: ProposalRef, k: Uuid) {
    forall a: Aspect ::
      Last(l, j', j'.order, k, a) ==
        if Target(c, ref) == Some(k) && Settles(c, a) then Some(ref) else Last(l, j, j.order, k, a)
  }

  lemma UntouchedStaysTold(initial: map<Uuid, Task>, l: Ledger, j: Journal, j': Journal, c: Command, ref: ProposalRef,
      k: Uuid, task: Task)
    requires LastMoves(l, j, j', c, ref, k) && Target(c, ref) != Some(k) && TaskTold(initial, l, j, k, task)
    ensures TaskTold(initial, l, j', k, task)
  {
    hide Last, StatusTold, AssigneeTold, ConclusionTold, OriginTold;
    assert Last(l, j', j'.order, k, Status) == Last(l, j, j.order, k, Status);
    assert Last(l, j', j'.order, k, Assignee) == Last(l, j, j.order, k, Assignee);
    assert Last(l, j', j'.order, k, Conclusion) == Last(l, j, j.order, k, Conclusion);
    assert Last(l, j', j'.order, k, Creation) == Last(l, j, j.order, k, Creation);
  }

  lemma CreatedIsTold(initial: map<Uuid, Task>, l: Ledger, j: Journal, j': Journal, c: Command, ref: ProposalRef, k: Uuid)
    requires LastMoves(l, j, j', c, ref, k) && Creates(c) && k == Named(TaskName, ref) && k !in initial
    requires ref in l.proposals && l.proposals[ref].command == c
    requires forall a: Aspect :: Last(l, j, j.order, k, a) == None
    ensures TaskTold(initial, l, j', k, NewTask(c, ref))
  {
    hide Last;
    assert Target(c, ref) == Some(k);
    assert Last(l, j', j'.order, k, Status) == Some(ref) && Last(l, j', j'.order, k, Creation) == Some(ref);
    assert Last(l, j', j'.order, k, Assignee) == None && Last(l, j', j'.order, k, Conclusion) == None;
  }

  lemma UpdatedIsTold(initial: map<Uuid, Task>, l: Ledger, j: Journal, j': Journal, c: Command, ref: ProposalRef, task: Task)
    requires c.Existing() && LastMoves(l, j, j', c, ref, c.task) && TaskTold(initial, l, j, c.task, task)
    requires ref in l.proposals && l.proposals[ref].command == c && UpdatedTask(task, c, ref).Ok?
    ensures TaskTold(initial, l, j', c.task, UpdatedTask(task, c, ref).value)
  {
    hide Last;
    var k := c.task;
    assert Target(c, ref) == Some(k);
    assert Last(l, j', j'.order, k, Creation) == Last(l, j, j.order, k, Creation);
    assert Last(l, j', j'.order, k, Status) == if c.Transition? || c.Close? then Some(ref) else Last(l, j, j.order, k, Status);
    assert Last(l, j', j'.order, k, Assignee) == if c.Assign? then Some(ref) else Last(l, j, j.order, k, Assignee);
    assert Last(l, j', j'.order, k, Conclusion) == if c.AddConclusion? then Some(ref) else Last(l, j, j.order, k, Conclusion);
  }

  lemma CommitTellsTasks(initial: map<Uuid, Task>, t: Tables, t': Tables, p: Proposal)
    requires TasksTold(initial, t) && Derived(t.journal, t.targets) && initial.Keys <= t.targets.tasks.Keys
    requires p.ref !in t.journal.executions && p.ref in t.ledger.proposals && t.ledger.proposals[p.ref].command == p.command
    requires ApplyCommand(t.targets, p.command, p.ref).Ok? && t'.ledger == t.ledger
    requires t'.targets == ApplyCommand(t.targets, p.command, p.ref).value.targets
    requires forall k :: LastMoves(t.ledger, t.journal, t'.journal, p.command, p.ref, k)
    requires forall k, a: Aspect :: k !in t.targets.tasks ==> Last(t.ledger, t.journal, t.journal.order, k, a) == None
    ensures TasksTold(initial, t')
  {
    var g, g', c, ref := t.targets, t'.targets, p.command, p.ref;
    CreatedIdentitiesAreNew(t.journal, g, ref);
    hide TaskTold, LastMoves, Last, UpdatedTask, NewTask, Derived;
    forall k <- g'.tasks
      ensures TaskTold(initial, t.ledger, t'.journal, k, g'.tasks[k])
    {
      if Target(c, ref) != Some(k) {
        UntouchedStaysTold(initial, t.ledger, t.journal, t'.journal, c, ref, k, g.tasks[k]);
      } else if c.Existing() {
        UpdatedIsTold(initial, t.ledger, t.journal, t'.journal, c, ref, g.tasks[k]);
      } else {
        CreatedIsTold(initial, t.ledger, t.journal, t'.journal, c, ref, k);
      }
    }
  }

  /** The risk of a closing is that of its task; every other risk stays. */
  lemma CommitTellsRisks(t: Tables, t': Tables, p: Proposal)
    requires RisksTold(t) && Coupled(t.targets) && Derived(t.journal, t.targets)
    requires p.ref !in t.journal.executions && p.ref in t.ledger.proposals && t.ledger.proposals[p.ref].command == p.command
    requires ApplyCommand(t.targets, p.command, p.ref).Ok? && t'.ledger == t.ledger
    requires t'.targets == ApplyCommand(t.targets, p.command, p.ref).value.targets
    requires forall k :: LastMoves(t.ledger, t.journal, t'.journal, p.command, p.ref, k)
    requires forall k, a: Aspect :: k !in t.targets.tasks ==> Last(t.ledger, t.journal, t.journal.order, k, a) == None
    ensures RisksTold(t')
  {
    var g, g', c, ref := t.targets, t'.targets, p.command, p.ref;
    CreatedIdentitiesAreNew(t.journal, g, ref);
    forall r <- g'.risks
      ensures r.Named? && RiskTold(LastCommand(t.ledger, t'.journal, Named(TaskName, r.of), Closure), g'.risks[r])
    {
      CommitTellsRisk(t, t', p, r);
    }
  }

  lemma CommitTellsRisk(t: Tables, t': Tables, p: Proposal, r: Uuid)
    requires RisksTold(t) && Coupled(t.targets) && t'.ledger == t.ledger && r in t'.targets.risks
    requires p.ref in t.ledger.proposals && t.ledger.proposals[p.ref].command == p.command
    requires Named(TaskName, p.ref) !in t.targets.tasks && Named(RiskName, p.ref) !in t.targets.risks
    requires ApplyCommand(t.targets, p.command, p.ref).Ok?
    requires t'.targets == ApplyCommand(t.targets, p.command, p.ref).value.targets
    requires forall k :: LastMoves(t.ledger, t.journal, t'.journal, p.command, p.ref, k)
    requires forall k, a: Aspect :: k !in t.targets.tasks ==> Last(t.ledger, t.journal, t.journal.order, k, a) == None
    ensures r.Named? && RiskTold(LastCommand(t.ledger, t'.journal, Named(TaskName, r.of), Closure), t'.targets.risks[r])
  {
    var g, g', c, ref := t.targets, t'.targets, p.command, p.ref;
    hide Last, LinkRule, ConclusionRule;
    if r in g.risks {
      var k := Named(TaskName, r.of);
      assert r.Named? && k in g.tasks && g.tasks[k].risk == Some(r);
      assert LastMoves(t.ledger, t.journal, t'.journal, c, ref, k);
      assert Last(t.ledger, t'.journal, t'.journal.order, k, Closure)
        == if Target(c, ref) == Some(k) && Settles(c, Closure) then Some(ref) else Last(t.ledger, t.journal, t.journal.order, k, Closure);
      if c.Close? {
        ClosedRisk(g, c, ref, r);
      }
    } else {
      assert c.OpenSellerRiskCase? && r == Named(RiskName, ref);
      assert LastMoves(t.ledger, t.journal, t'.journal, c, ref, Named(TaskName, ref));
      assert Last(t.ledger, t'.journal, t'.journal.order, Named(TaskName, ref), Closure) == None;
    }
  }

  /** Closing a task gives its own risk the named disposition and leaves the others alone. */
  lemma ClosedRisk(g: Targets, c: Command, ref: ProposalRef, r: Uuid)
    requires Coupled(g) && c.Close? && ApplyToTask(g, c, ref).Ok? && r in g.risks
    ensures var g' := ApplyToTask(g, c, ref).value.targets;
      && r.Named? && r in g'.risks
      && (c.task == Named(TaskName, r.of) ==> c.disposition.Some? && g'.risks[r].status == Final(c.disposition.value))
      && (c.task != Named(TaskName, r.of) ==> g'.risks[r] == g.risks[r])
  {
    assert LinkRule(c.task, g.tasks[c.task], g.risks);
    assert g.tasks[Named(TaskName, r.of)].risk == Some(r);
  }

  lemma KeysAfter(g: Targets, c: Command, ref: ProposalRef)
    requires ApplyCommand(g, c, ref).Ok?
    ensures var g' := ApplyCommand(g, c, ref).value.targets;
      && g'.tasks.Keys == g.tasks.Keys + (if Creates(c) then {Named(TaskName, ref)} else {})
      && g'.risks.Keys == g.risks.Keys + (if c.OpenSellerRiskCase? then {Named(RiskName, ref)} else {})
      && g'.rules.Keys == g.rules.Keys + (if c.CreateAlertRule? then {Named(RuleName, ref)} else {})
  {
  }

  lemma CommandsAfter(t: Tables, t': Tables, p: Proposal, r: ProposalRef)
    requires p.ref !in t.journal.executions && t'.ledger == t.ledger
    requires p.ref in t.ledger.proposals && t.ledger.proposals[p.ref].command == p.command
    requires t'.journal.executions.Keys == t.journal.executions.Keys + {p.ref}
    ensures ByCommand(t', r, Creation) == (ByCommand(t, r, Creation) || (r == p.ref && Creates(p.command)))
    ensures OpensCase(t', r) == (OpensCase(t, r) || (r == p.ref && p.command.OpenSellerRiskCase?))
    ensures CreatesRule(t', r) == (CreatesRule(t, r) || (r == p.ref && p.command.CreateAlertRule?))
  {
  }

  lemma CommitCreatesHere(initial: map<Uuid, Task>, t: Tables, t': Tables, p: Proposal, k: Uuid)
    requires CreatedHere(initial, t, k) && p.ref !in t.journal.executions
    requires p.ref in t.ledger.proposals && t.ledger.proposals[p.ref].command == p.command
    requires ApplyCommand(t.targets, p.command, p.ref).Ok? && t'.ledger == t.ledger
    requires t'.targets == ApplyCommand(t.targets, p.command, p.ref).value.targets
    requires t'.journal.executions.Keys == t.journal.executions.Keys + {p.ref}
    ensures CreatedHere(initial, t', k)
  {
    var g, g', c, ref := t.targets, t'.targets, p.command, p.ref;
    KeysAfter(g, c, ref);
    if k.Named? {
      CommandsAfter(t, t', p, k.of);
    }
    hide ByCommand, OpensCase, CreatesRule, ApplyCommand;
    assert k in g'.tasks <==> k in g'.tasks.Keys;
    assert k in g'.risks <==> k in g'.risks.Keys;
    assert k in g'.rules <==> k in g'.rules.Keys;
  }

  lemma CommitCreates(initial: map<Uuid, Task>, t: Tables, t': Tables, p: Proposal)
    requires CreatedExactly(initial, t) && p.ref !in t.journal.executions
    requires p.ref in t.ledger.proposals && t.ledger.proposals[p.ref].command == p.command
    requires ApplyCommand(t.targets, p.command, p.ref).Ok? && t'.ledger == t.ledger
    requires t'.targets == ApplyCommand(t.targets, p.command, p.ref).value.targets
    requires t'.journal.executions.Keys == t.journal.executions.Keys + {p.ref}
    ensures CreatedExactly(initial, t')
  {
    hide CreatedHere, ApplyCommand;
    forall k
      ensures CreatedHere(initial, t', k)
    {
      CommitCreatesHere(initial, t, t', p, k);
    }
  }

  // ---- whole runs ----

  ghost predicate Told(initial: map<Uuid, Task>, t: Tables) {
    TasksTold(initial, t) && CreatedExactly(initial, t)
  }

  lemma StartTold(initial: map<Uuid, Task>)
    requires WellFormedTasks(initial)
    ensures Told(initial, EmptyTables(initial)) && RisksTold(EmptyTables(initial))
  {
  }

  lemma LastMovesOnCommit(t: Tables, t': Tables, p: Proposal, approval: Approval, now: int)
    requires Ordered(t.journal) && TargetsKnown(t.ledger, t.journal, t.targets)
    requires p.ref in t.ledger.proposals && t.ledger.proposals[p.ref].command == p.command && p.ref !in t.journal.executions
    requires Execute(t, p, approval, now).1.Ok? && t' == Execute(t, p, approval, now).0
    ensures ApplyCommand(t.targets, p.command, p.ref).Ok? && t'.ledger == t.ledger
    ensures t'.targets == ApplyCommand(t.targets, p.command, p.ref).value.targets
    ensures t'.journal.executions.Keys == t.journal.executions.Keys + {p.ref}
    ensures forall k :: LastMoves(t.ledger, t.journal, t'.journal, p.command, p.ref, k)
    ensures forall k, a: Aspect :: k !in t.targets.tasks ==> Last(t.ledger, t.journal, t.journal.order, k, a) == None
  {
    hide Last, ApplyCommand;
    var receipt := ReceiptOf(p.ref, ApplyCommand(t.targets, p.command, p.ref).value, now);
    assert t'.journal == File(t.journal, receipt, approval.nonceDigest);
    assert forall r <- t.journal.executions :: r in t.ledger.proposals;
    forall k
      ensures LastMoves(t.ledger, t.journal, t'.journal, p.command, p.ref, k)
    {
      forall a: Aspect
        ensures Last(t.ledger, t'.journal, t'.journal.order, k, a) ==
          if Target(p.command, p.ref) == Some(k) && Settles(p.command, a) then Some(p.ref)
          else Last(t.ledger, t.journal, t.journal.order, k, a)
      {
        LastAfterCommit(t.ledger, t.journal, receipt, approval.nonceDigest, k, a);
      }
    }
    forall k, a: Aspect | k !in t.targets.tasks
      ensures Last(t.ledger, t.journal, t.journal.order, k, a) == None
    {
      LastOfUnknown(t.ledger, t.journal, t.targets, t.journal.order, k, a);
    }
  }

  lemma ExecuteTells(initial: map<Uuid, Task>, t: Tables, p: Proposal, approval: Approval, now: int)
    requires Told(initial, t) && Derived(t.journal, t.targets) && initial.Keys <= t.targets.tasks.Keys
    requires Ordered(t.journal) && TargetsKnown(t.ledger, t.journal, t.targets) && OnFile(t.ledger, p)
    ensures Told(initial, Execute(t, p, approval, now).0)
    ensures Coupled(t.targets) && RisksTold(t) ==> RisksTold(Execute(t, p, approval, now).0)
  {
    var (t', r) := Execute(t, p, approval, now);
    hide Coupled, RisksTold, TasksTold, CreatedExactly, Derived, Ordered, TargetsKnown, ApplyCommand;
    if p.ref !in t.journal.executions && r.Ok? {
      LastMovesOnCommit(t, t', p, approval, now);
      CommitTellsTasks(initial, t, t', p);
      CommitCreates(initial, t, t', p);
      if Coupled(t.targets) && RisksTold(t) {
        CommitTellsRisks(t, t', p);
      }
    }
  }

  lemma StepTells(initial: map<Uuid, Task>, y: System, e: Event)
    requires WellFormedTasks(initial) && SystemInv(initial, y) && Enabled(y, e) && Told(initial, y.tables)
    ensures Told(initial, NextTables(y, e))
    ensures Coupled(y.tables.targets) && RisksTold(y.tables) ==> RisksTold(NextTables(y, e))
  {
    TablesStep(initial, y, e);
    var t, t' := y.tables, NextTables(y, e);
    hide Coupled, RisksTold, TasksTold, CreatedExactly, Derived, Chained, LedgerInv, Authorised, Execute, CreateOrGet, Decide;
    assert TablesInv(initial, t) ==> Ordered(t.journal) && Chained(initial, t.ledger, t.journal, t.targets);
    assert Chained(initial, t.ledger, t.journal, t.targets) ==>
      TargetsKnown(t.ledger, t.journal, t.targets) && initial.Keys <= t.targets.tasks.Keys by {
      ChainedKnows(initial, t);
    }
    if e.CommitExecute? {
      assert CallInv(t.ledger, t.journal, y.calls[e.id]);
      ExecuteTells(initial, t, y.calls[e.id].proposal, y.calls[e.id].verified, e.now);
    } else {
      assert t' == t.(ledger := t'.ledger);
      hide TablesMove, TargetsKnown, Ordered;
      assert TablesMove(t, t') ==> Grows(t.ledger, t'.ledger) by {
        MovesGrow(t, t');
      }
      LedgerTells(initial, t, t'.ledger);
    }
  }

  lemma ChainedKnows(initial: map<Uuid, Task>, t: Tables)
    ensures Chained(initial, t.ledger, t.journal, t.targets) ==>
      TargetsKnown(t.ledger, t.journal, t.targets) && initial.Keys <= t.targets.tasks.Keys
  {
    hide Touching, TargetsKnown;
  }

  lemma MovesGrow(t: Tables, t': Tables)
    ensures TablesMove(t, t') ==> Grows(t.ledger, t'.ledger)
  {
    hide Grows, JournalGrows, TargetsMove;
  }

  lemma LedgerTells(initial: map<Uuid, Task>, t: Tables, l': Ledger)
    requires Grows(t.ledger, l') && Ordered(t.journal) && TargetsKnown(t.ledger, t.journal, t.targets) && Told(initial, t)
    ensures Told(initial, t.(ledger := l'))
    ensures RisksTold(t) ==> RisksTold(t.(ledger := l'))
  {
    LedgerKeepsTasks(initial, t, l');
    LedgerKeepsCreated(initial, t, l');
    if RisksTold(t) {
      LedgerKeepsRisks(t, l');
    }
    hide TasksTold, CreatedExactly, RisksTold, Grows, Ordered, TargetsKnown;
  }

  lemma {:induction false} RunTells(initial: map<Uuid, Task>, states: seq<System>, events: seq<Event>, i: nat)
    requires WellFormedTasks(initial) && IsRun(initial, states, events) && i < |states|
    ensures Told(initial, states[i].tables)
    ensures CoupledTasks(initial) ==> RisksTold(states[i].tables)
  {
    hide SystemInv, Told, RisksTold, Coupled, Enabled, NextTables;
    if i == 0 {
      StartTold(initial);
    } else {
      RunTells(initial, states, events, i - 1);
      RunInv(initial, states, events, i - 1);
      if CoupledTasks(initial) {
        RunCoupled(initial, states, events, i - 1);
      }
      StepTells(initial, states[i - 1], events[i - 1]);
    }
  }

  /** In every reachable state a task is what the executed commands say in commit order: its status is that of
      the last transition, closing or creation, its assignee that of the last assignment, its conclusion that
      of the last conclusion; priority, summary and risk link are those it was created with. */
  lemma TaskToldByJournal(initial: map<Uuid, Task>, states: seq<System>, events: seq<Event>, i: nat, k: Uuid)
    requires WellFormedTasks(initial) && IsRun(initial, states, events) && i < |states|
    requires k in states[i].tables.targets.tasks
    ensures var t := states[i].tables; TaskTold(initial, t.ledger, t.journal, k, t.targets.tasks[k])
  {
    RunTells(initial, states, events, i);
    hide TaskTold;
  }

  /** The tasks, risks and rules of a reachable state are exactly those the executed commands created. */
  lemma CreatedByJournal(initial: map<Uuid, Task>, states: seq<System>, events: seq<Event>, i: nat)
    requires WellFormedTasks(initial) && IsRun(initial, states, events) && i < |states|
    ensures CreatedExactly(initial, states[i].tables)
  {
    RunTells(initial, states, events, i);
  }

  /** A linked risk is final with exactly the disposition named by the executed closing of its task, and under
      investigation if there is none. */
  lemma RiskToldByJournal(initial: map<Uuid, Task>, states: seq<System>, events: seq<Event>, i: nat, k: Uuid)
    requires CoupledTasks(initial) && IsRun(initial, states, events) && i < |states|
    requires var g := states[i].tables.targets; k in g.tasks && g.tasks[k].risk.Some?
    ensures var t := states[i].tables;
      var r := t.targets.tasks[k].risk.value;
      r in t.targets.risks && RiskTold(LastCommand(t.ledger, t.journal, k, Closure), t.targets.risks[r])
  {
    RunTells(initial, states, events, i);
    RunCoupled(initial, states, events, i);
    var g := states[i].tables.targets;
    assert LinkRule(k, g.tasks[k], g.risks);
    hide RiskTold, LastCommand;
  }
}
