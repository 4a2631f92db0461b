/** Which approvals can execute: every execution was committed in time, by the approver, for what was approved. */
module ProductSqlApproval {
  import opened Common
  import opened ProductSql
  import opened ProductSqlInvariants
  import opened ProductSqlSafety

  // ---- what nonces and executions are bound to ----

  /** The nonce of an approval is made out to its approver for the payload and the target versions of its
      proposal, and expires no later than the proposal. */
  predicate NonceFits(c: Control, n: nat)
    requires n in c.nonces
  {
    var k := c.nonces[n].key;
    && k in c.proposals && k in c.decisions
    && c.nonces[n].payload == c.proposals[k].payload && c.nonces[n].targetsSha == c.proposals[k].targetsSha
    && c.nonces[n].expires <= c.proposals[k].expires && c.nonces[n].approver == c.decisions[k].approver
    && c.decisions[k].approve
  }

  predicate UsedInTime(c: Control, n: nat, x: Execution) {
    && n in c.nonces && c.nonces[n].used && c.nonces[n].key == x.key
    && x.committedAt < c.nonces[n].expires && x.actor == c.nonces[n].approver
  }

  /** An execution was committed before the nonce of its version expired, by the actor it was made out to, as
      the command of its proposal. */
  ghost predicate ExecutionFits(c: Control, e: nat)
    requires e in c.executions
  {
    var x := c.executions[e];
    && x.key in c.proposals && x.command == c.proposals[x.key].command
    && exists n :: UsedInTime(c, n, x)
  }

  /** A version is revised by the requester of the version before it. */
  predicate SameRequester(c: Control, k: PKey) {
    k in c.proposals && k.version > 1 && Before(k) in c.proposals ==>
      c.proposals[Before(k)].requester == c.proposals[k].requester
  }

  /** A proposal of a risk case names a seller, and no other does. */
  predicate SellerFits(p: Proposal) {
    p.seller.Some? <==> p.command == OpenRisk
  }

  ghost predicate ApprovalInv(c: Control) {
    && (forall n <- c.nonces :: NonceFits(c, n))
    && (forall e <- c.executions :: ExecutionFits(c, e))
    && (forall k <- c.proposals :: SameRequester(c, k) && SellerFits(c.proposals[k]))
    && (forall d, e | d in c.executions && e in c.executions ::
          c.executions[d].actor == c.executions[e].actor && c.executions[d].idempotency == c.executions[e].idempotency ==> d == e)
  }

  /** Versions and decisions stay as they are, but for the status of a version. */
  ghost predicate KeepsApprovals(c: Control, d: Control) {
    && (forall k <- c.proposals :: k in d.proposals && d.proposals[k] == c.proposals[k].(status := d.proposals[k].status))
    && (forall k <- c.decisions :: k in d.decisions && d.decisions[k] == c.decisions[k])
    && (forall n <- c.nonces :: n in d.nonces
          && d.nonces[n] == c.nonces[n].(used := d.nonces[n].used) && (c.nonces[n].used ==> d.nonces[n].used))
  }

  lemma NonceStillFits(c: Control, d: Control, n: nat)
    requires KeepsApprovals(c, d) && n in c.nonces && NonceFits(c, n)
    ensures NonceFits(d, n)
  {
  }

  lemma ExecutionStillFits(c: Control, d: Control, e: nat)
    requires KeepsApprovals(c, d) && e in c.executions && ExecutionFits(c, e)
    requires e in d.executions && d.executions[e] == c.executions[e]
    ensures ExecutionFits(d, e)
  {
    var x := c.executions[e];
    var n :| UsedInTime(c, n, x);
    assert UsedInTime(d, n, x);
  }

  lemma OldOnesFit(c: Control, d: Control)
    requires ApprovalInv(c) && KeepsApprovals(c, d)
    requires forall e <- c.executions :: e in d.executions && d.executions[e] == c.executions[e]
    ensures forall n <- c.nonces :: n in d.nonces && NonceFits(d, n)
    ensures forall e <- c.executions :: ExecutionFits(d, e)
  {
    hide NonceFits, ExecutionFits;
    forall n <- c.nonces
      ensures n in d.nonces && NonceFits(d, n)
    {
      NonceStillFits(c, d, n);
    }
    forall e <- c.executions
      ensures ExecutionFits(d, e)
    {
      ExecutionStillFits(c, d, e);
    }
  }

  lemma CreateMakes(c: Control, a: ProposalArgs, now: int)
    requires CreateProposal(c, a, now).Ok? && CreateProposal(c, a, now).value != c
    ensures var d := CreateProposal(c, a, now).value;
      && KeepsApprovals(c, d) && a.key !in c.proposals && d.proposals.Keys == c.proposals.Keys + {a.key}
      && d.decisions == c.decisions && d.nonces == c.nonces && d.executions == c.executions
      && SellerFits(d.proposals[a.key]) && d.proposals[a.key].requester == a.requester
      && (a.key.version > 1 ==> Before(a.key) in c.proposals && c.proposals[Before(a.key)].requester == a.requester)
  {
  }

  lemma CreateKeepsApprovals(c: Control, a: ProposalArgs, now: int)
    requires ApprovalInv(c) && Numbered(c) && LiveLast(c) && CreateProposal(c, a, now).Ok?
    ensures ApprovalInv(CreateProposal(c, a, now).value)
  {
    var d := CreateProposal(c, a, now).value;
    if d != c {
      CreateMakes(c, a, now);
      CreateAdds(c, a, now);
      hide CreateProposal;
      OldOnesFit(c, d);
      hide NonceFits, ExecutionFits;
      forall k <- d.proposals
        ensures SameRequester(d, k) && SellerFits(d.proposals[k])
      {
        if k != a.key {
          assert SameRequester(c, k) && SellerFits(c.proposals[k]);
          if k.version > 1 && Before(k) == a.key {
            AddedIsHighest(c, d, a, k);
          }
        }
      }
    }
  }

  /** A version is added above every other of its proposal. */
  lemma AddedIsHighest(c: Control, d: Control, a: ProposalArgs, k: PKey)
    requires LiveLast(c) && Numbered(c) && AddsVersion(c, d, a) && k in c.proposals && k.id == a.key.id
    ensures k.version < a.key.version
  {
    if a.key.version > 1 && k.version > a.key.version - 1 {
      assert Below(Before(a.key), k);
    }
  }

  lemma DecideMakes(c: Control, a: DecisionArgs, now: int)
    requires Decide(c, a, now).Ok? && Decided(c) && NoncesRef(c)
    ensures var d := Decide(c, a, now).value;
      && KeepsApprovals(c, d) && d.proposals.Keys == c.proposals.Keys && d.executions == c.executions
      && (forall n <- d.nonces :: n in c.nonces || NonceFits(d, n))
  {
  }

  lemma DecideKeepsApprovals(c: Control, a: DecisionArgs, now: int)
    requires ApprovalInv(c) && Decided(c) && NoncesRef(c) && Decide(c, a, now).Ok?
    ensures ApprovalInv(Decide(c, a, now).value)
  {
    var d := Decide(c, a, now).value;
    DecideMakes(c, a, now);
    hide Decide;
    OldOnesFit(c, d);
    hide NonceFits, ExecutionFits;
    forall k <- d.proposals
      ensures SameRequester(d, k) && SellerFits(d.proposals[k])
    {
      assert SameRequester(c, k) && SellerFits(c.proposals[k]);
    }
  }

  /** A call that performs: what it had to present, and when. */
  predicate Presents(c: Control, call: Call, now: int) {
    && call.key in c.proposals && call.key in c.decisions && call.nonce in c.nonces
    && var p, d, n := c.proposals[call.key], c.decisions[call.key], c.nonces[call.nonce];
       && p.status == Approved && d.approve && call.actor == d.approver
       && TypeOf(call.mutation) == p.command && call.payload == p.payload && call.targetsSha == p.targetsSha
       && call.scenario == p.scenario && now < p.expires
       && n.key == call.key && !n.used && now < n.expires
  }

  lemma PerformMakes(db: Db, call: Call, now: int)
    requires Perform(db, call, now).Ok?
    ensures var c, d := db.control, Perform(db, call, now).value.0.control;
      && Presents(c, call, now) && KeepsApprovals(c, d) && d.proposals == c.proposals && d.nonces.Keys == c.nonces.Keys
      && call.execution !in c.executions && d.executions.Keys == c.executions.Keys + {call.execution}
      && (forall e <- c.executions :: d.executions[e] == c.executions[e])
      && (forall e <- c.executions :: !(c.executions[e].actor == call.actor && c.executions[e].idempotency == call.idempotency))
      && var x := d.executions[call.execution];
         && x.key == call.key && x.actor == call.actor && x.idempotency == call.idempotency && x.committedAt == now
         && x.command == TypeOf(call.mutation) && UsedInTime(d, call.nonce, x)
  {
    hide Mutate, Executed;
  }

  lemma SameProposalsFit(c: Control, d: Control)
    requires forall k <- c.proposals :: SameRequester(c, k) && SellerFits(c.proposals[k])
    requires d.proposals == c.proposals
    ensures forall k <- d.proposals :: SameRequester(d, k) && SellerFits(d.proposals[k])
  {
    forall k <- d.proposals
      ensures SameRequester(d, k) && SellerFits(d.proposals[k])
    {
      assert SameRequester(c, k) && SellerFits(c.proposals[k]);
    }
  }

  lemma PerformKeepsApprovals(db: Db, call: Call, now: int)
    requires ApprovalInv(db.control) && Perform(db, call, now).Ok?
    ensures ApprovalInv(Perform(db, call, now).value.0.control)
  {
    var c, d := db.control, Perform(db, call, now).value.0.control;
    PerformMakes(db, call, now);
    hide Perform, Presents, NonceFits, SameRequester, SellerFits;
    SameProposalsFit(c, d);
    OldOnesFit(c, d);
    assert d.executions[call.execution].key in d.proposals && ExecutionFits(d, call.execution) by {
      hide KeepsApprovals;
      assert Presents(c, call, now) ==> call.key in c.proposals && TypeOf(call.mutation) == c.proposals[call.key].command by {
        PresentsNames(c, call, now);
      }
    }
    hide ExecutionFits, UsedInTime, KeepsApprovals;
  }

  lemma PresentsNames(c: Control, call: Call, now: int)
    ensures Presents(c, call, now) ==> call.key in c.proposals && TypeOf(call.mutation) == c.proposals[call.key].command
  {
  }

  lemma ResetKeepsNonceFits(db: Db, s: string, n: nat)
    requires NoncesRef(db.control) && DecisionsRef(db.control) && n in db.control.nonces && NonceFits(db.control, n)
    requires db.control.nonces[n].scenario != s
    ensures n in Without(db, s).control.nonces && NonceFits(Without(db, s).control, n)
  {
  }

  lemma ResetKeepsExecutionFits(db: Db, s: string, e: nat)
    requires NoncesRef(db.control) && DecisionsRef(db.control) && ExecutionsRef(db.control)
    requires e in db.control.executions && ExecutionFits(db.control, e) && db.control.executions[e].scenario != s
    ensures e in Without(db, s).control.executions && ExecutionFits(Without(db, s).control, e)
  {
    var c, d := db.control, Without(db, s).control;
    var n :| UsedInTime(c, n, c.executions[e]);
    SameScenario(c, n, e);
    assert UsedInTime(d, n, d.executions[e]);
  }

  lemma ResetKeepsApprovals(db: Db, s: string)
    requires ApprovalInv(db.control) && ControlRef(db.control)
    ensures ApprovalInv(Reset(db, s).control)
  {
    ResetIsExact(db, s);
    var c, d := db.control, Without(db, s).control;
    hide Reset, NonceFits, ExecutionFits;
    forall n <- d.nonces
      ensures NonceFits(d, n)
    {
      ResetKeepsNonceFits(db, s, n);
    }
    forall e <- d.executions
      ensures ExecutionFits(d, e)
    {
      ResetKeepsExecutionFits(db, s, e);
    }
    forall k <- d.proposals
      ensures SameRequester(d, k) && SellerFits(d.proposals[k])
    {
      assert SameRequester(c, k) && SellerFits(c.proposals[k]);
    }
  }

  lemma CommandKeepsApprovals(db: Db, call: Call, when: int)
    requires ApprovalInv(db.control)
    ensures ApprovalInv(Next(db, Command(call, when)).control)
  {
    hide ApprovalInv, Perform, Executed, Replay;
    if Perform(db, call, when).Ok? {
      PerformKeepsApprovals(db, call, when);
    }
  }

  lemma OthersKeepControl(db: Db, e: Event)
    requires e.Store? || e.Append? || e.Trace?
    ensures Next(db, e).control == db.control
  {
    hide StoreBacktest, AppendAudit;
  }

  lemma StepKeepsApprovals(db: Db, e: Event)
    requires Inv(db) && ApprovalInv(db.control)
    ensures ApprovalInv(Next(db, e).control)
  {
    assert ControlRef(db.control) && Numbered(db.control) && LiveLast(db.control) && Decided(db.control);
    hide Inv, ApprovalInv, CreateProposal, Decide, Execute, StoreBacktest, AppendAudit, Reset, Numbered, LiveLast, Decided;
    match e {
      case Create(args, now) =>
        if CreateProposal(db.control, args, now).Ok? {
          CreateKeepsApprovals(db.control, args, now);
        }
      case Record(decision, at) =>
        if Decide(db.control, decision, at).Ok? {
          DecideKeepsApprovals(db.control, decision, at);
        }
      case Command(call, when) =>
        hide ControlRef;
        CommandKeepsApprovals(db, call, when);
      case ResetScenario(scenario) => ResetKeepsApprovals(db, scenario);
      case _ =>
        hide ControlRef;
        OthersKeepControl(db, e);
    }
  }

  lemma {:induction false} RunApprovals(states: seq<Db>, events: seq<Event>, i: nat)
    requires IsRun(states, events) && i < |states|
    ensures ApprovalInv(states[i].control)
  {
    if i > 0 {
      hide Inv, ApprovalInv, Next;
      RunApprovals(states, events, i - 1);
      RunInv(states, events, i - 1);
      StepKeepsApprovals(states[i - 1], events[i - 1]);
      assert states[i - 1 + 1] == Next(states[i - 1], events[i - 1]);
    }
  }

  // ---- the promises ----

  /** Every execution of a reachable state was committed while the nonce of its version and its proposal were
      unexpired, by the approver of its decision, as the command that was proposed, and that nonce is made
      out for the payload and the target versions of the proposal. */
  lemma ExecutedInTime(states: seq<Db>, events: seq<Event>, i: nat, e: nat) returns (n: nat)
    requires IsRun(states, events) && i < |states| && e in states[i].control.executions
    ensures var c := states[i].control;
      var x := c.executions[e];
      && x.key in c.proposals && x.key in c.decisions && n in c.nonces && c.nonces[n].key == x.key && c.nonces[n].used
      && x.committedAt < c.nonces[n].expires <= c.proposals[x.key].expires
      && x.actor == c.decisions[x.key].approver == c.nonces[n].approver && c.decisions[x.key].approve
      && x.command == c.proposals[x.key].command
      && c.nonces[n].payload == c.proposals[x.key].payload && c.nonces[n].targetsSha == c.proposals[x.key].targetsSha
  {
    RunApprovals(states, events, i);
    var c := states[i].control;
    hide IsRun;
    assert ExecutionFits(c, e);
    n :| UsedInTime(c, n, c.executions[e]);
    assert NonceFits(c, n);
  }

  /** All versions of a proposal between which none is missing come from one requester. */
  lemma RevisedByRequester(states: seq<Db>, events: seq<Event>, i: nat, k: PKey)
    requires IsRun(states, events) && i < |states| && k in states[i].control.proposals
    ensures var c := states[i].control;
      && (k.version > 1 && Before(k) in c.proposals ==> c.proposals[Before(k)].requester == c.proposals[k].requester)
      && (c.proposals[k].seller.Some? <==> c.proposals[k].command == OpenRisk)
  {
    RunApprovals(states, events, i);
    hide IsRun, NonceFits, ExecutionFits;
    assert SameRequester(states[i].control, k) && SellerFits(states[i].control.proposals[k]);
  }

  /** A call for a version not executed yet is refused and changes nothing unless it presents the approval: made
      by the approver, for the approved payload, target versions, scenario and command, with the version's
      own unused nonce, before the grant and the proposal expire. */
  lemma RefusedUnlessPresented(db: Db, call: Call, now: int)
    requires !Executed(db.control, call.key) && !Presents(db.control, call, now)
    ensures Execute(db, call, now).Err? && Next(db, Command(call, now)) == db
  {
    if Perform(db, call, now).Ok? {
      PerformMakes(db, call, now);
    }
    hide Perform, Presents;
  }

  /** In particular, at or after the expiry of the version's nonce or of its proposal, whatever the call presents. */
  lemma ExpiredIsRefused(states: seq<Db>, events: seq<Event>, i: nat, call: Call, now: int, n: nat)
    requires IsRun(states, events) && i < |states| && !Executed(states[i].control, call.key)
    requires var c := states[i].control;
      n in c.nonces && c.nonces[n].key == call.key && (c.nonces[n].expires <= now || (call.key in c.proposals && c.proposals[call.key].expires <= now))
    ensures Execute(states[i], call, now).Err? && Next(states[i], Command(call, now)) == states[i]
  {
    RunInv(states, events, i);
    assert NoncesBound(states[i].control);
    hide IsRun, Inv, Execute, Next, Executed;
    RefusedUnlessPresented(states[i], call, now);
  }

  /** And a call that presents the approval, under an unused execution id and idempotency key, fails only where
      its command does. */
  lemma PresentedPerforms(states: seq<Db>, events: seq<Event>, i: nat, call: Call, now: int)
    requires IsRun(states, events) && i < |states| && !Executed(states[i].control, call.key)
    requires Presents(states[i].control, call, now) && call.execution !in states[i].control.executions
    requires forall e <- states[i].control.executions ::
      !(states[i].control.executions[e].actor == call.actor && states[i].control.executions[e].idempotency == call.idempotency)
    ensures var db := states[i];
      Execute(db, call, now).Ok? <==>
        Mutate(db.business, call.mutation, db.control.proposals[call.key].targets, call.scenario).Ok?
  {
    RunApprovals(states, events, i);
    RunInv(states, events, i);
    var db := states[i];
    assert Audited(db.control, db.trail) && Decided(db.control) && NoncesRef(db.control) && DecisionsRef(db.control);
    assert NonceFits(db.control, call.nonce);
    hide IsRun, Inv, Mutate, ApprovalInv, Executed, Audited;
    assert call.execution !in db.trail.audits by {
      AuditsAreExecutions(db);
    }
  }

  lemma AuditsAreExecutions(db: Db)
    ensures Audited(db.control, db.trail) ==> db.trail.audits.Keys == db.control.executions.Keys
  {
  }

  // ---- executions and the calls they come from ----

  /** Transaction `m` of a run committed this call. */
  predicate Commits(states: seq<Db>, events: seq<Event>, m: nat, call: Call) {
    && m < |events| && |states| == |events| + 1 && events[m].Command? && events[m].call == call
    && call.execution !in states[m].control.executions && call.execution in states[m + 1].control.executions
  }

  lemma CommitPresents(states: seq<Db>, events: seq<Event>, m: nat, call: Call)
    requires IsRun(states, events) && Commits(states, events, m, call)
    ensures !Executed(states[m].control, call.key) && Perform(states[m], call, events[m].when).Ok?
    ensures states[m + 1] == Perform(states[m], call, events[m].when).value.0
    ensures Presents(states[m].control, call, events[m].when)
  {
    assert states[m + 1] == Next(states[m], events[m]);
    if Perform(states[m], call, events[m].when).Ok? {
      PerformMakes(states[m], call, events[m].when);
    }
    hide Perform, Presents;
  }

  /** Every execution on record was committed by a call for its version that presented the approval, at the
      time the execution carries. */
  lemma {:induction false} ExecutionsCommitted(states: seq<Db>, events: seq<Event>, i: nat, e: nat) returns (m: nat, call: Call)
    requires IsRun(states, events) && i < |states| && e in states[i].control.executions
    ensures m < i && Commits(states, events, m, call) && call.execution == e && Presents(states[m].control, call, events[m].when)
    ensures var x := states[i].control.executions[e];
      x.key == call.key && x.actor == call.actor && x.idempotency == call.idempotency && x.committedAt == events[m].when
  {
    assert i > 0;
    assert states[i - 1 + 1] == Next(states[i - 1], events[i - 1]);
    if e in states[i - 1].control.executions {
      NewOrOld(states[i - 1], events[i - 1], e);
      hide Next, Presents;
      m, call := ExecutionsCommitted(states, events, i - 1, e);
    } else {
      NewOrOld(states[i - 1], events[i - 1], e);
      m, call := i - 1, events[i - 1].call;
      CommitPresents(states, events, m, call);
      PerformMakes(states[m], call, events[m].when);
      hide Perform, Presents, Next;
    }
  }

  lemma NewOrOld(db: Db, e: Event, x: nat)
    requires x in Next(db, e).control.executions
    ensures if x in db.control.executions then Next(db, e).control.executions[x] == db.control.executions[x]
            else e.Command? && e.call.execution == x
  {
    if e.ResetScenario? {
      ResetIsExact(db, e.scenario);
    }
    hide Mutate, Authorised, Claimable, Inserted, Reset;
  }
}
