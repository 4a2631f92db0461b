/** What proposals, decisions and grants carry, traced to the calls they come from. */
module OperationOrigins {
  import opened Common
  import opened Operations
  import opened OperationStore
  import opened OperationWorkflow
  import opened OperationInvariants
  import opened OperationSafety

  const DAY := 24 * 60 * 60
  const TEN_MINUTES := 10 * 60

  /** The version a command expects of its target; what is created is expected at version zero. */
  function TargetVersion(c: Command): nat {
    if c.Existing() then c.expected else 0
  }

  /** A proposal lives for a day and its payload binds the command to the version it expects. */
  predicate ProposalTraced(p: Proposal) {
    p.expiresAt == p.createdAt + DAY && p.payload == PayloadDigest(p.command, TargetVersion(p.command))
  }

  predicate DraftTraced(d: Draft) {
    d.expiresAt == d.createdAt + DAY && d.payload == PayloadDigest(d.command, TargetVersion(d.command))
  }

  /** A grant is made out for the proposal as it was filed, for ten minutes. */
  predicate GrantTraced(p: Proposal, d: Decision) {
    d.grant.Some? ==>
      && d.grant.value.payload == p.payload && d.grant.value.requester == p.requester
      && d.grant.value.ref == p.ref && d.grant.value.approver == d.approver
      && d.grant.value.expiresAt == d.decidedAt + TEN_MINUTES
  }

  predicate SameRequester(l: Ledger, r: ProposalRef) {
    r in l.proposals && r.version > 1 && ProposalRef(r.id, r.version - 1) in l.proposals ==>
      l.proposals[ProposalRef(r.id, r.version - 1)].requester == l.proposals[r].requester
  }

  ghost predicate LedgerTraced(l: Ledger) {
    && (forall r <- l.proposals :: ProposalTraced(l.proposals[r]) && l.proposals[r].ref == r)
    && (forall r :: SameRequester(l, r))
    && (forall r <- l.decisions :: r in l.proposals && GrantTraced(l.proposals[r], l.decisions[r].receipt))
  }

  predicate CallTraced(l: Ledger, c: Call) {
    match c
    case Proposing(d) => DraftTraced(d)
    case Deciding(r, _) => r.ref in l.proposals && GrantTraced(l.proposals[r.ref], r)
    case _ => true
  }

  ghost predicate Traced(y: System) {
    LedgerTraced(y.tables.ledger) && forall id <- y.calls :: CallTraced(y.tables.ledger, y.calls[id])
  }

  lemma CreateKeepsTraced(l: Ledger, d: Draft, drawn: Uuid)
    requires LedgerTraced(l) && LiveVersions(l) && DecidedApart(l) && DraftTraced(d) && drawn !in l.latest
    ensures LedgerTraced(CreateOrGet(l, d, drawn).0)
  {
    var l' := CreateOrGet(l, d, drawn).0;
    hide Dense, GrantTraced;
    forall r
      ensures SameRequester(l', r)
    {
      assert SameRequester(l, r);
    }
    CreateKeepsGrants(l, d, drawn);
  }

  lemma CreateKeepsGrants(l: Ledger, d: Draft, drawn: Uuid)
    requires LedgerTraced(l) && LiveVersions(l) && DecidedApart(l) && drawn !in l.latest
    ensures var l' := CreateOrGet(l, d, drawn).0;
      forall r <- l'.decisions :: r in l'.proposals && GrantTraced(l'.proposals[r], l'.decisions[r].receipt)
  {
    var l' := CreateOrGet(l, d, drawn).0;
    hide Dense, SameRequester;
    forall r <- l'.decisions
      ensures r in l'.proposals && GrantTraced(l'.proposals[r], l'.decisions[r].receipt)
    {
      assert r in l.decisions && r in l.proposals && GrantTraced(l.proposals[r], l.decisions[r].receipt);
    }
  }

  lemma DecideKeepsRequester(l: Ledger, d: Decision, approval: Option<Approval>, now: int, r: ProposalRef)
    requires SameRequester(l, r)
    ensures SameRequester(Decide(l, d, approval, now).0, r)
  {
  }

  lemma DecideKeepsTraced(l: Ledger, d: Decision, approval: Option<Approval>, now: int)
    requires LedgerTraced(l) && d.ref in l.proposals && GrantTraced(l.proposals[d.ref], d)
    ensures LedgerTraced(Decide(l, d, approval, now).0)
  {
    var l' := Decide(l, d, approval, now).0;
    hide SameRequester;
    assert forall r <- l'.proposals :: ProposalTraced(l'.proposals[r]) && l'.proposals[r].ref == r;
    assert forall r <- l'.decisions :: r in l'.proposals && GrantTraced(l'.proposals[r], l'.decisions[r].receipt);
    hide Decide, ProposalTraced, GrantTraced;
    forall r
      ensures SameRequester(l', r)
    {
      DecideKeepsRequester(l, d, approval, now, r);
    }
  }

  lemma CallStaysTraced(l: Ledger, l': Ledger, c: Call)
    requires CallTraced(l, c) && Grows(l, l')
    ensures CallTraced(l', c)
  {
  }

  lemma NextCallTraced(y: System, e: Event)
    requires Traced(y) && Enabled(y, e)
    ensures CallTraced(NextTables(y, e).ledger, NextCall(y, e))
  {
    if e.BeginPropose? {
      assert NextTables(y, e) == y.tables;
    } else if e.BeginDecide? {
      assert NextTables(y, e) == y.tables;
      assert e.ref in y.tables.ledger.proposals ==> y.tables.ledger.proposals[e.ref].ref == e.ref;
    } else {
      hide CreateOrGet, Decide, Execute, LedgerTraced;
    }
  }

  lemma TablesStayTraced(initial: map<Uuid, Task>, y: System, e: Event)
    requires SystemInv(initial, y) && Traced(y) && Enabled(y, e)
    ensures LedgerTraced(NextTables(y, e).ledger)
  {
    hide WorkInv, LedgerTraced, Execute, CreateOrGet, Decide;
    if e.CommitPropose? {
      assert CallTraced(y.tables.ledger, y.calls[e.id]);
      CreateKeepsTraced(y.tables.ledger, y.calls[e.id].draft, e.drawn);
    } else if e.CommitDecide? {
      assert CallTraced(y.tables.ledger, y.calls[e.id]);
      DecideKeepsTraced(y.tables.ledger, y.calls[e.id].receipt, y.calls[e.id].approval, e.now);
    } else if e.CommitExecute? {
      ExecuteKeepsLedger(y.tables, y.calls[e.id].proposal, y.calls[e.id].verified, e.now);
    }
  }

  lemma ExecuteKeepsLedger(t: Tables, p: Proposal, approval: Approval, now: int)
    ensures Execute(t, p, approval, now).0.ledger == t.ledger
  {
    hide ApplyCommand;
  }

  lemma StepGrows(initial: map<Uuid, Task>, y: System, e: Event)
    requires WellFormedTasks(initial) && SystemInv(initial, y) && Enabled(y, e)
    ensures Grows(y.tables.ledger, NextTables(y, e).ledger)
  {
    hide SystemInv, NextTables, Enabled, Grows, JournalGrows, TargetsMove, TablesInv;
    TablesStep(initial, y, e);
  }

  lemma StepKeepsTraced(initial: map<Uuid, Task>, y: System, e: Event)
    requires WellFormedTasks(initial) && SystemInv(initial, y) && Traced(y) && Enabled(y, e)
    ensures Traced(Next(y, e))
  {
    StepGrows(initial, y, e);
    TablesStayTraced(initial, y, e);
    NextCallTraced(y, e);
    hide SystemInv, NextTables, NextCall, Enabled, LedgerTraced, CallTraced, Grows;
    CallsStayTraced(y.tables.ledger, NextTables(y, e).ledger, y.calls, Next(y, e).calls, e.id);
  }

  lemma CallsStayTraced(l: Ledger, l': Ledger, calls: map<nat, Call>, calls': map<nat, Call>, moved: nat)
    requires Grows(l, l') && forall id <- calls :: CallTraced(l, calls[id])
    requires moved in calls' && CallTraced(l', calls'[moved])
    requires forall id <- calls' :: id == moved || (id in calls && calls'[id] == calls[id])
    ensures forall id <- calls' :: CallTraced(l', calls'[id])
  {
    hide CallTraced, Grows;
    forall id <- calls'
      ensures CallTraced(l', calls'[id])
    {
      if id != moved {
        CallStaysTraced(l, l', calls[id]);
      }
    }
  }

  lemma {:induction false} RunTraced(initial: map<Uuid, Task>, states: seq<System>, events: seq<Event>, i: nat)
    requires WellFormedTasks(initial) && IsRun(initial, states, events) && i < |states|
    ensures Traced(states[i])
  {
    hide SystemInv, Enabled, Next;
    if i > 0 {
      hide Traced;
      RunTraced(initial, states, events, i - 1);
      RunInv(initial, states, events, i - 1);
      StepKeepsTraced(initial, states[i - 1], events[i - 1]);
    }
  }

  /** Every proposal on file lives for a day from its filing, under a payload that binds its command to the
      version the command expects, and all versions of a proposal come from one requester. */
  lemma ProposalsAreTraced(initial: map<Uuid, Task>, states: seq<System>, events: seq<Event>, i: nat, id: Uuid, v: nat, w: nat)
    requires WellFormedTasks(initial) && IsRun(initial, states, events) && i < |states|
    requires var l := states[i].tables.ledger; ProposalRef(id, v) in l.proposals && ProposalRef(id, w) in l.proposals
    ensures var l := states[i].tables.ledger;
      && ProposalTraced(l.proposals[ProposalRef(id, v)])
      && l.proposals[ProposalRef(id, v)].requester == l.proposals[ProposalRef(id, w)].requester
  {
    RunTraced(initial, states, events, i);
    RunInv(initial, states, events, i);
    var l := states[i].tables.ledger;
    hide SystemInv, LedgerTraced, ProposalTraced;
    assert LedgerTraced(l) && Listed(l) && Dense(l) by {
      hide WorkInv;
      assert SystemInv(initial, states[i]) ==> Listed(l) && Dense(l);
    }
    assert LedgerTraced(l) ==> ProposalTraced(l.proposals[ProposalRef(id, v)]);
    OneRequester(l, id, v);
    OneRequester(l, id, w);
  }

  lemma {:induction false} OneRequester(l: Ledger, id: Uuid, v: nat)
    requires LedgerTraced(l) && Listed(l) && Dense(l) && ProposalRef(id, v) in l.proposals
    ensures v >= 1 && ProposalRef(id, 1) in l.proposals
    ensures l.proposals[ProposalRef(id, v)].requester == l.proposals[ProposalRef(id, 1)].requester
  {
    assert v >= 1 && id in l.latest && v <= l.latest[id];
    if v > 1 {
      assert ProposalRef(id, v - 1) in l.proposals;
      assert SameRequester(l, ProposalRef(id, v));
      OneRequester(l, id, v - 1);
    }
  }

  /** Every grant on record is made out for its proposal: payload, requester, approver, and ten minutes from
      the decision. */
  lemma GrantsAreTraced(initial: map<Uuid, Task>, states: seq<System>, events: seq<Event>, i: nat, ref: ProposalRef)
    requires WellFormedTasks(initial) && IsRun(initial, states, events) && i < |states|
    requires ref in states[i].tables.ledger.decisions
    ensures var l := states[i].tables.ledger;
      ref in l.proposals && GrantTraced(l.proposals[ref], l.decisions[ref].receipt)
  {
    RunTraced(initial, states, events, i);
  }

  /** A decision is recorded exactly while its proposal is pending and unexpired, and then as it was made; a
      pending proposal whose day has passed is marked expired instead; nothing else of the ledger changes. */
  lemma DecidedInTime(l: Ledger, d: Decision, approval: Option<Approval>, now: int)
    ensures var (l', r) := Decide(l, d, approval, now);
      && (r.Ok? <==> d.ref in l.proposals && l.proposals[d.ref].status == Pending && now < l.proposals[d.ref].expiresAt)
      && (d.ref in l'.decisions && l'.decisions[d.ref] != StoredDecision(d, approval) ==>
            r.Err? && d.ref in l.decisions && l'.decisions[d.ref] == l.decisions[d.ref])
      && (r.Ok? ==> r.value == d && d.ref in l'.decisions && l'.proposals[d.ref].status == d.status)
      && (r == Err(ProposalExpired) <==>
            d.ref in l.proposals && l.proposals[d.ref].status == Pending && l.proposals[d.ref].expiresAt <= now)
      && (r == Err(ProposalExpired) ==> l'.proposals[d.ref].status == Expired)
      && (forall other <- l.proposals :: other != d.ref ==> other in l'.proposals && l'.proposals[other] == l.proposals[other])
      && (r.Err? && r.error != ProposalExpired ==> l' == l)
  {
  }

  /** Who may do what: an analyst proposes, against the version the target has; an approver other than the
      requester decides; an approver executes. */
  lemma RolesExactly(y: System, actor: ActorId, role: Role, key: string, c: Command, revises: Option<ProposalRef>,
      ref: ProposalRef, approve: bool, nonce: nat, keyVersion: nat, grant: Grant, now: int)
    ensures Proposed(y.tables.targets, actor, role, key, c, revises, now).Proposing? <==>
      role == Analyst
      && (c.Existing() ==> c.task in y.tables.targets.tasks && y.tables.targets.tasks[c.task].version == c.expected)
    ensures Decided(y.tables.ledger, actor, role, ref, approve, nonce, keyVersion, now).Deciding? <==>
      role == Approver && ref in y.tables.ledger.proposals && y.tables.ledger.proposals[ref].requester != actor
    ensures ExecutionStarted(y.tables.ledger, actor, role, grant).AwaitingDecision? <==>
      role == Approver && grant.ref in y.tables.ledger.proposals
  {
  }

  /** A receipt names its execution and the versions its command took its target between. */
  lemma ReceiptsName(initial: map<Uuid, Task>, states: seq<System>, events: seq<Event>, i: nat, ref: ProposalRef)
    requires WellFormedTasks(initial) && IsRun(initial, states, events) && i < |states|
    requires ref in states[i].tables.journal.executions
    ensures var t := states[i].tables;
      var r := t.journal.executions[ref];
      && ref in t.ledger.proposals && r.ref == ref && r.executionId == Named(OperationName, ref)
      && r.before == TargetVersion(t.ledger.proposals[ref].command) && r.after == r.before + 1
  {
    ReceiptsKept(initial, states, events, i, ref);
    RunInv(initial, states, events, i);
    assert Filed(states[i].tables.journal);
    assert ReceiptNamed(states[i].tables, ref);
  }

  predicate ReceiptNamed(t: Tables, ref: ProposalRef) {
    ref in t.journal.executions ==>
      && ref in t.ledger.proposals
      && t.journal.executions[ref].before == TargetVersion(t.ledger.proposals[ref].command)
      && t.journal.executions[ref].after == t.journal.executions[ref].before + 1
  }

  lemma ExecuteNames(t: Tables, p: Proposal, approval: Approval, now: int, ref: ProposalRef)
    requires OnFile(t.ledger, p) && ReceiptNamed(t, ref)
    ensures ReceiptNamed(Execute(t, p, approval, now).0, ref)
  {
  }

  lemma NamedStays(t: Tables, l': Ledger, ref: ProposalRef)
    requires ReceiptNamed(t, ref) && Grows(t.ledger, l')
    ensures ReceiptNamed(t.(ledger := l'), ref)
  {
  }

  lemma OnlyExecutionsFile(y: System, e: Event)
    requires Enabled(y, e) && !e.CommitExecute?
    ensures NextTables(y, e) == y.tables.(ledger := NextTables(y, e).ledger)
  {
    hide CreateOrGet, Decide;
  }

  lemma StepNames(initial: map<Uuid, Task>, y: System, e: Event, ref: ProposalRef)
    requires WellFormedTasks(initial) && SystemInv(initial, y) && Enabled(y, e) && ReceiptNamed(y.tables, ref)
    ensures ReceiptNamed(NextTables(y, e), ref)
  {
    if e.CommitExecute? {
      hide Execute, TablesInv, ReceiptNamed;
      assert CallInv(y.tables.ledger, y.tables.journal, y.calls[e.id]);
      ExecuteNames(y.tables, y.calls[e.id].proposal, y.calls[e.id].verified, e.now, ref);
    } else {
      hide NextTables, ReceiptNamed, SystemInv, Enabled, Grows;
      StepGrows(initial, y, e);
      OnlyExecutionsFile(y, e);
      NamedStays(y.tables, NextTables(y, e).ledger, ref);
    }
  }

  lemma {:induction false} ReceiptsKept(initial: map<Uuid, Task>, states: seq<System>, events: seq<Event>, i: nat, ref: ProposalRef)
    requires WellFormedTasks(initial) && IsRun(initial, states, events) && i < |states|
    ensures ReceiptNamed(states[i].tables, ref)
  {
    hide SystemInv, Enabled, NextTables;
    if i > 0 {
      hide ReceiptNamed;
      ReceiptsKept(initial, states, events, i - 1, ref);
      RunInv(initial, states, events, i - 1);
      StepNames(initial, states[i - 1], events[i - 1], ref);
    }
  }

  /** A committing step leaves its caller the store's answer, unless the response is lost; then it leaves nothing,
      though the tables have moved all the same. */
  lemma LostLeavesNothing(y: System, e: Event, kept: Event)
    requires Enabled(y, e) && (e.CommitPropose? || e.CommitDecide? || e.CommitExecute?) && e.lost
    requires kept == e.(lost := false)
    ensures Enabled(y, kept) && NextCall(y, e) == Lost && NextCall(y, kept) != Lost && NextTables(y, e) == NextTables(y, kept)
  {
    hide CreateOrGet, Decide, Execute;
  }

  /** The transitions a command may name: on from open, to and fro between work and blockage, and to resolved, which
      only a closing leaves. */
  lemma TransitionsExactly(a: TaskStatus, b: TaskStatus)
    ensures AllowedTransition(a, b) <==>
      (a, b) in {(Open, InProgress), (Open, Blocked), (InProgress, Blocked), (InProgress, Resolved), (Blocked, InProgress),
        (Blocked, Resolved)}
    ensures AllowedTransition(a, b) ==> a != Resolved && a != Closed && b != Open && b != Closed
  {
  }

  // ---- what is refused, and why ----

  /** The task an existing-target command names, at the version it names. */
  predicate AtVersion(g: Targets, c: Command)
    requires c.Existing()
  {
    c.task in g.tasks && g.tasks[c.task].version == c.expected
  }

  /** A command on a task is refused exactly for these reasons, the earlier before the later. */
  lemma CommandRefused(g: Targets, c: Command, ref: ProposalRef)
    requires c.Existing()
    ensures var r := ApplyCommand(g, c, ref);
      && (r == Err(TaskNotFound) <==> c.task !in g.tasks)
      && (r == Err(VersionConflict) <==> c.task in g.tasks && g.tasks[c.task].version != c.expected)
      && (r == Err(StatusConflict) <==> AtVersion(g, c) && c.Transition? && g.tasks[c.task].status != c.fromStatus)
      && (r == Err(NotResolved) <==> AtVersion(g, c) && (c.AddConclusion? || c.Close?) && g.tasks[c.task].status != Resolved)
      && (r == Err(ConclusionRequired) <==>
           AtVersion(g, c) && c.Close? && g.tasks[c.task].status == Resolved && g.tasks[c.task].conclusion != Some(c.conclusion))
      && (r == Err(DispositionRequired) <==>
           AtVersion(g, c) && c.Close? && g.tasks[c.task].status == Resolved && g.tasks[c.task].conclusion == Some(c.conclusion)
           && g.tasks[c.task].risk.Some? && c.disposition.None?)
      && (r.Err? ==>
           r.error in {TaskNotFound, VersionConflict, StatusConflict, NotResolved, ConclusionRequired, DispositionRequired,
             MissingKey})
  {
  }

  /** What is created is never refused. */
  lemma CreationAccepted(g: Targets, c: Command, ref: ProposalRef)
    requires !c.Existing()
    ensures ApplyCommand(g, c, ref).Ok?
  {
  }

  /** An execute step answers a version from the record; it refuses a nonce claimed before; and otherwise does what
      the command does, or fails as it fails. */
  lemma ExecutesExactly(t: Tables, p: Proposal, approval: Approval, now: int)
    ensures var (t', r) := Execute(t, p, approval, now);
      if p.ref in t.journal.executions then r == Ok(t.journal.executions[p.ref]) && t' == t
      else if approval.nonceDigest in t.journal.nonces then r == Err(NonceUsed)
      else
        && (r.Ok? <==> ApplyCommand(t.targets, p.command, p.ref).Ok?)
        && (r.Err? ==> Err(r.error) == ApplyCommand(t.targets, p.command, p.ref))
        && (r.Ok? ==>
             && r.value.committedAt == now && r.value.ref == p.ref
             && approval.nonceDigest in t'.journal.nonces && t'.journal.nonces[approval.nonceDigest] == p.ref)
  {
    hide ApplyCommand;
  }

  /** A draft is refused exactly for a key bound to another payload, or for a revision that is not of its requester's
      own pending latest version; a bound key answers with the proposal it is bound to. */
  lemma FilingRefused(l: Ledger, d: Draft, drawn: Uuid)
    requires forall k <- l.idempotency :: l.idempotency[k].ref in l.proposals
    ensures var (l', r) := CreateOrGet(l, d, drawn);
      var bound := (d.actor, d.key) in l.idempotency;
      && (r == Err(IdempotencyConflict) <==> bound && l.idempotency[(d.actor, d.key)].payload != d.payload)
      && (r == Err(RevisionConflict) <==> !bound && d.revises.Some? && !OwnPendingLatest(l, d.actor, d.revises.value))
      && (r.Err? ==> r.error in {IdempotencyConflict, RevisionConflict} && l' == l)
      && (r.Ok? && bound ==> r.value == l.proposals[l.idempotency[(d.actor, d.key)].ref] && l' == l)
      && (r.Ok? && !bound ==>
           && r.value.ref == (if d.revises.None? then ProposalRef(drawn, 1)
                              else ProposalRef(d.revises.value.id, d.revises.value.version + 1))
           && r.value.status == Pending && r.value.requester == d.actor && r.value.command == d.command
           && r.value.payload == d.payload && r.value.createdAt == d.createdAt && r.value.expiresAt == d.expiresAt
           && r.value.ref in l'.proposals && l'.proposals[r.value.ref] == r.value
           && (d.actor, d.key) in l'.idempotency && l'.idempotency[(d.actor, d.key)] == Binding(r.value.ref, d.payload))
  {
  }

  predicate OwnPendingLatest(l: Ledger, actor: ActorId, ref: ProposalRef) {
    && ref in l.proposals && l.proposals[ref].status == Pending && l.proposals[ref].requester == actor
    && ref.id in l.latest && l.latest[ref.id] == ref.version
  }

  /** A grant fails its check exactly for these reasons, the earlier before the later: another actor, a signature that
      is not over its own fields, fields or a nonce other than the approval's, and its expiry. */
  lemma GrantRefused(g: Grant, stored: Approval, actor: ActorId, now: int)
    ensures var r := VerifyGrant(g, stored, actor, now);
      var own := actor == g.approver && actor == stored.approver;
      var signed := g.signature
        == Signature(g.keyVersion, g.ref, g.payload, g.requester, g.approver, g.expiresAt, g.nonce);
      var bound := g.ref == stored.ref && g.payload == stored.payload && g.requester == stored.requester
        && g.expiresAt == stored.expiresAt && g.keyVersion == stored.keyVersion && NonceDigest(g.nonce) == stored.nonceDigest;
      && (r == Err(GrantActorMismatch) <==> !own)
      && (r == Err(SignatureInvalid) <==> own && !(signed && bound))
      && (r == Err(GrantExpired) <==> own && signed && bound && g.expiresAt <= now)
      && (r.Ok? <==> own && signed && bound && now < g.expiresAt)
  {
  }

  /** An execute call goes on past the decision exactly if its version was approved, with a grant, and the caller and
      the grant it holds are the approver's. */
  lemma DecisionRefused(l: Ledger, actor: ActorId, grant: Grant, p: Proposal)
    ensures var next := DecisionRead(l, AwaitingDecision(actor, grant, p));
      var approved := p.ref in l.decisions && l.decisions[p.ref].receipt.status == Approved
        && l.decisions[p.ref].approval.Some? && l.decisions[p.ref].receipt.grant.Some?;
      && (next == Raised(ApprovalRequired) <==> !approved)
      && (next == Raised(GrantActorMismatch) <==>
           approved && !(actor == l.decisions[p.ref].receipt.approver && grant.approver == l.decisions[p.ref].receipt.approver))
      && (next.AwaitingExecution? <==>
           approved && actor == l.decisions[p.ref].receipt.approver && grant.approver == l.decisions[p.ref].receipt.approver)
  {
  }
}
