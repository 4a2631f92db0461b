/** What every transaction of the product schema keeps. */
module ProductSqlInvariants {
  import opened Common
  import opened ProductSql

  // ---- foreign keys, each within one scenario ----

  predicate DecisionsRef(c: Control) {
    forall k <- c.decisions :: k in c.proposals && c.proposals[k].scenario == c.decisions[k].scenario
  }

  predicate NoncesRef(c: Control) {
    forall n <- c.nonces :: c.nonces[n].key in c.decisions && c.decisions[c.nonces[n].key].scenario == c.nonces[n].scenario
  }

  predicate ExecutionsRef(c: Control) {
    forall e <- c.executions :: c.executions[e].key in c.proposals && c.proposals[c.executions[e].key].scenario == c.executions[e].scenario
  }

  predicate ConclusionsRef(b: Business) {
    forall k <- b.conclusions :: b.conclusions[k].task in b.tasks && b.tasks[b.conclusions[k].task].scenario == b.conclusions[k].scenario
  }

  predicate RisksRef(b: Business) {
    forall r <- b.risks :: b.risks[r].task in b.tasks && b.tasks[b.risks[r].task].scenario == b.risks[r].scenario
  }

  predicate RulesRef(b: Business) {
    forall r <- b.rules :: b.rules[r].backtest in b.backtests && b.backtests[b.rules[r].backtest].scenario == b.rules[r].scenario
  }

  predicate AuditsRef(c: Control, l: Trail) {
    forall a <- l.audits ::
      && l.audits[a].execution in c.executions && c.executions[l.audits[a].execution].scenario == l.audits[a].scenario
      && l.audits[a].key in c.proposals && c.proposals[l.audits[a].key].scenario == l.audits[a].scenario
  }

  predicate ControlRef(c: Control) {
    DecisionsRef(c) && NoncesRef(c) && ExecutionsRef(c)
  }

  predicate BusinessRef(b: Business) {
    ConclusionsRef(b) && RisksRef(b) && RulesRef(b)
  }

  predicate RefInv(db: Db) {
    ControlRef(db.control) && BusinessRef(db.business) && AuditsRef(db.control, db.trail)
  }

  // ---- proposals and decisions ----

  /** Every version below another of its proposal is superseded. */
  predicate LiveLast(c: Control) {
    forall j, k | j in c.proposals && k in c.proposals :: Below(j, k) ==> c.proposals[j].status == Superseded
  }

  predicate Below(j: PKey, k: PKey) {
    j.id == k.id && j.version < k.version
  }

  predicate Numbered(c: Control) {
    forall k <- c.proposals :: k.version >= 1
  }

  /** A decision exists exactly on approved and rejected versions, by someone other than the requester. */
  predicate Decided(c: Control) {
    && (forall k <- c.proposals :: k in c.decisions <==> (c.proposals[k].status == Approved || c.proposals[k].status == Rejected))
    && (forall k <- c.decisions :: k in c.proposals ==>
          && (c.decisions[k].approve <==> c.proposals[k].status == Approved)
          && c.decisions[k].requester == c.proposals[k].requester && c.decisions[k].approver != c.proposals[k].requester)
  }

  predicate OnePerRequest(c: Control) {
    forall j, k | j in c.proposals && k in c.proposals :: SameKey(c.proposals[j], c.proposals[k]) ==> j == k
  }

  predicate SameKey(p: Proposal, q: Proposal) {
    p.requester == q.requester && p.idempotency == q.idempotency
  }

  // ---- nonces, executions and audit ----

  /** One nonce for each approval, made out to its approver. */
  predicate NoncesBound(c: Control) {
    && (forall m, n | m in c.nonces && n in c.nonces :: c.nonces[m].key == c.nonces[n].key ==> m == n)
    && (forall n <- c.nonces :: c.nonces[n].key in c.decisions ==>
          c.decisions[c.nonces[n].key].approve && c.decisions[c.nonces[n].key].approver == c.nonces[n].approver)
  }

  predicate UsedFor(c: Control, n: nat, key: PKey) {
    n in c.nonces && c.nonces[n].used && c.nonces[n].key == key
  }

  /** At most one execution for each version, with the claimed nonce of that version, and no other is claimed. */
  ghost predicate ExecutedOnce(c: Control) {
    && (forall d, e | d in c.executions && e in c.executions :: c.executions[d].key == c.executions[e].key ==> d == e)
    && (forall e <- c.executions :: exists n :: UsedFor(c, n, c.executions[e].key))
    && (forall n <- c.nonces :: c.nonces[n].used ==> Executed(c, c.nonces[n].key))
  }

  /** Exactly one audit event for each execution, saying what it did. */
  predicate Audited(c: Control, l: Trail) {
    && l.audits.Keys == c.executions.Keys
    && (forall e <- l.audits :: e in c.executions ==>
          l.audits[e] == Audit(e, c.executions[e].key, c.executions[e].before, c.executions[e].after, c.executions[e].scenario))
  }

  // ---- tasks and risks ----

  /** A linked risk is under investigation at version one until its task closes, and has a final disposition
      at version two after; no two risks link one task. */
  predicate RisksCoupled(b: Business) {
    && (forall r <- b.risks :: b.risks[r].task in b.tasks ==>
          if b.tasks[b.risks[r].task].status == Closed then b.risks[r].status != UnderInvestigation && b.risks[r].version == 2
          else b.risks[r].status == UnderInvestigation && b.risks[r].version == 1)
    && (forall q, r | q in b.risks && r in b.risks :: b.risks[q].task == b.risks[r].task ==> q == r)
  }

  /** Conclusions stand on resolved and closed tasks only, and on every closed one. */
  predicate ConclusionsCoupled(b: Business) {
    && (forall k <- b.conclusions :: b.conclusions[k].task in b.tasks ==>
          b.tasks[b.conclusions[k].task].status == Resolved || b.tasks[b.conclusions[k].task].status == Closed)
    && (forall t <- b.tasks :: b.tasks[t].status == Closed ==> Concluded(b, t))
  }

  predicate Concluded(b: Business, t: nat) {
    exists k <- b.conclusions :: b.conclusions[k].task == t
  }

  ghost predicate ControlInv(c: Control) {
    LiveLast(c) && Numbered(c) && Decided(c) && OnePerRequest(c) && NoncesBound(c) && ExecutedOnce(c)
  }

  predicate BusinessInv(b: Business) {
    BusinessRef(b) && RisksCoupled(b) && ConclusionsCoupled(b)
  }

  ghost predicate Inv(db: Db) {
    RefInv(db) && ControlInv(db.control) && BusinessInv(db.business) && Audited(db.control, db.trail)
  }

  // ---- create_operation_proposal ----

  /** Adding a pending version above a superseded one, or the first of its proposal. */
  predicate AddsVersion(c: Control, d: Control, a: ProposalArgs) {
    && d.decisions == c.decisions && d.nonces == c.nonces && d.executions == c.executions
    && a.key !in c.proposals && a.key.version >= 1
    && d.proposals.Keys == c.proposals.Keys + {a.key}
    && d.proposals[a.key].status == Pending && d.proposals[a.key].requester == a.requester
    && d.proposals[a.key].idempotency == a.idempotency
    && (forall k <- c.proposals :: !SameRequest(c.proposals[k], a))
    && (forall k <- c.proposals :: k in d.proposals && d.proposals[k] ==
          if a.key.version > 1 && k == Before(a.key) then c.proposals[k].(status := Superseded) else c.proposals[k])
    && (if a.key.version > 1 then Before(a.key) in c.proposals && c.proposals[Before(a.key)].status == Pending
        else forall k <- c.proposals :: k.id != a.key.id)
  }

  lemma CreateAdds(c: Control, a: ProposalArgs, now: int)
    requires CreateProposal(c, a, now).Ok?
    ensures var d := CreateProposal(c, a, now).value; d == c || AddsVersion(c, d, a)
  {
  }

  lemma AddKeepsLiveLast(c: Control, d: Control, a: ProposalArgs)
    requires LiveLast(c) && Numbered(c) && AddsVersion(c, d, a)
    ensures LiveLast(d) && Numbered(d)
  {
    forall j, k | j in d.proposals && k in d.proposals && Below(j, k)
      ensures d.proposals[j].status == Superseded
    {
      if j == a.key {
        assert k in c.proposals;
        var previous := Before(a.key);
        assert a.key.version > 1 && Below(previous, k);
      } else if k == a.key {
        var previous := Before(a.key);
        assert j == previous || Below(j, previous);
      } else {
        assert Below(j, k);
      }
    }
  }

  lemma AddKeepsDecided(c: Control, d: Control, a: ProposalArgs)
    requires Decided(c) && DecisionsRef(c) && AddsVersion(c, d, a)
    ensures Decided(d) && DecisionsRef(d)
  {
    assert a.key !in c.decisions;
  }

  lemma AddKeepsRequests(c: Control, d: Control, a: ProposalArgs)
    requires OnePerRequest(c) && AddsVersion(c, d, a)
    ensures OnePerRequest(d)
  {
    assert forall k <- c.proposals :: !SameRequest(c.proposals[k], a);
    forall j, k | j in d.proposals && k in d.proposals && SameKey(d.proposals[j], d.proposals[k])
      ensures j == k
    {
      if j != a.key && k != a.key {
        assert SameKey(c.proposals[j], c.proposals[k]);
      }
    }
  }

  lemma AddKeepsReferences(c: Control, d: Control, l: Trail, a: ProposalArgs)
    requires AddsVersion(c, d, a) && NoncesRef(c) && ExecutionsRef(c) && AuditsRef(c, l)
    ensures NoncesRef(d) && ExecutionsRef(d) && AuditsRef(d, l)
  {
    assert forall k <- c.proposals :: k in d.proposals && d.proposals[k].scenario == c.proposals[k].scenario;
    hide AddsVersion;
  }

  /** What depends on nonces, decisions and executions only. */
  lemma SameRecords(c: Control, d: Control, l: Trail)
    requires d.decisions == c.decisions && d.nonces == c.nonces && d.executions == c.executions
    requires NoncesBound(c) && ExecutedOnce(c) && Audited(c, l)
    ensures NoncesBound(d) && ExecutedOnce(d) && Audited(d, l)
  {
    assert forall n, k :: UsedFor(d, n, k) == UsedFor(c, n, k);
    assert forall k :: Executed(d, k) == Executed(c, k);
    hide UsedFor, Executed;
  }

  lemma CreateKeeps(db: Db, a: ProposalArgs, now: int)
    requires Inv(db) && CreateProposal(db.control, a, now).Ok?
    ensures Inv(db.(control := CreateProposal(db.control, a, now).value))
  {
    var c, d := db.control, CreateProposal(db.control, a, now).value;
    CreateAdds(c, a, now);
    assert d == c || (d.decisions == c.decisions && d.nonces == c.nonces && d.executions == c.executions);
    hide CreateProposal, AddsVersion, LiveLast, Numbered, Decided, OnePerRequest, NoncesBound, ExecutedOnce, DecisionsRef,
      NoncesRef, ExecutionsRef, AuditsRef, Audited, BusinessInv, BusinessRef;
    if d != c {
      AddKeepsLiveLast(c, d, a);
      AddKeepsDecided(c, d, a);
      AddKeepsRequests(c, d, a);
      AddKeepsReferences(c, d, db.trail, a);
      SameRecords(c, d, db.trail);
    }
  }

  /** The partial unique index is never what refuses a new version: the function's own guards already do. */
  lemma IndexIsImplied(c: Control, a: ProposalArgs)
    requires LiveLast(c) && Numbered(c) && a.key.version >= 1
    requires if a.key.version > 1 then Before(a.key) in c.proposals && c.proposals[Before(a.key)].status == Pending
             else forall k <- c.proposals :: k.id != a.key.id
    ensures var superseded :=
        if a.key.version > 1 then c.proposals[Before(a.key) := c.proposals[Before(a.key)].(status := Superseded)] else c.proposals;
      a.key !in superseded && !LiveVersion(superseded, a.key.id)
  {
    if a.key.version > 1 {
      var previous := Before(a.key);
      var superseded := c.proposals[previous := c.proposals[previous].(status := Superseded)];
      if a.key in c.proposals {
        assert Below(previous, a.key);
      }
      forall k <- superseded | k.id == a.key.id
        ensures !Live(superseded[k])
      {
        if k != previous {
          assert Below(k, previous) || Below(previous, k);
        }
      }
    }
  }
}
