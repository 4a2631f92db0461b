/** Public values of the controlled-operation protocol: references, commands, receipts. */
module Operations {
  import opened Common

  /** uuid4 draws are Random; uuid5 is an injective function of the name it hashes. The version
      nibble keeps the two kinds apart, and the name spaces keep their prefixes apart. */
  datatype Uuid = Random(n: nat) | Named(space: NameSpace, of: ProposalRef)

  datatype NameSpace = OperationName | TaskName | RiskName | RuleName

  datatype ProposalRef = ProposalRef(id: Uuid, version: nat)

  type ActorId = nat

  datatype Role = Analyst | Approver | DataAdmin

  datatype Priority = Low | Medium | High

  datatype TaskStatus = Open | InProgress | Blocked | Resolved | Closed

  datatype Disposition = Confirmed | Dismissed | Inconclusive

  /** The text of a conclusion reference: the one the store derives, or any other text. */
  datatype ConclusionRef = ConclusionOf(ref: ProposalRef) | OtherText(text: string)

  datatype Command =
    | OpenSellerRiskCase(priority: Priority)
    | CreateTask(priority: Priority, summary: string)
    | CreateTaskFromAlertHit(priority: Priority)
    | CreateAlertRule
    | Assign(task: Uuid, expected: nat, assignee: string)
    | Transition(task: Uuid, expected: nat, fromStatus: TaskStatus, toStatus: TaskStatus)
    | AddConclusion(task: Uuid, expected: nat)
    | Close(task: Uuid, expected: nat, conclusion: ConclusionRef, disposition: Option<Disposition>)
  {
    /** Commands on a task that already exists, at an exact version. */
    predicate Existing() {
      Assign? || Transition? || AddConclusion? || Close?
    }

    /** What the command model's validators guarantee. */
    predicate Valid() {
      Transition? ==> AllowedTransition(fromStatus, toStatus)
    }
  }

  predicate AllowedTransition(a: TaskStatus, b: TaskStatus) {
    || (a == Open && (b == InProgress || b == Blocked))
    || (a == InProgress && (b == Blocked || b == Resolved))
    || (a == Blocked && (b == InProgress || b == Resolved))
  }

  /** SHA-256 of the canonical command and its target versions, as an injective value. */
  datatype PayloadDigest = PayloadDigest(command: Command, target: nat)

  /** SHA-256 of a raw nonce, as an injective value. */
  datatype NonceDigest = NonceDigest(nonce: nat)

  datatype ProposalStatus = Pending | Approved | Rejected | Expired | Superseded

  datatype Proposal = Proposal(
    ref: ProposalRef,
    status: ProposalStatus,
    requester: ActorId,
    command: Command,
    payload: PayloadDigest,
    createdAt: int,
    expiresAt: int)

  datatype Draft = Draft(
    actor: ActorId,
    key: string,
    command: Command,
    payload: PayloadDigest,
    revises: Option<ProposalRef>,
    createdAt: int,
    expiresAt: int)

  datatype Binding = Binding(ref: ProposalRef, payload: PayloadDigest)

  /** HMAC over the canonical envelope: determined by the key version and the signed fields. */
  datatype Signature = Signature(keyVersion: nat, ref: ProposalRef, payload: PayloadDigest,
    requester: ActorId, approver: ActorId, expiresAt: int, nonce: nat)

  datatype Grant = Grant(
    ref: ProposalRef,
    payload: PayloadDigest,
    requester: ActorId,
    approver: ActorId,
    expiresAt: int,
    nonce: nat,
    keyVersion: nat,
    signature: Signature)

  datatype Approval = Approval(
    ref: ProposalRef,
    payload: PayloadDigest,
    requester: ActorId,
    approver: ActorId,
    expiresAt: int,
    nonceDigest: NonceDigest,
    keyVersion: nat)

  /** A decision receipt; a grant comes with every approval and with no rejection. */
  datatype Decision = Decision(
    ref: ProposalRef,
    status: ProposalStatus,
    approver: ActorId,
    decidedAt: int,
    grant: Option<Grant>)
  {
    predicate Valid() {
      || (status == Approved && grant.Some?)
      || (status == Rejected && grant.None?)
    }
  }

  datatype Receipt = Receipt(
    executionId: Uuid,
    ref: ProposalRef,
    before: nat,
    after: nat,
    committedAt: int)

  datatype Task = Task(
    status: TaskStatus,
    priority: Priority,
    summary: string,
    version: nat,
    assignee: Option<string>,
    conclusion: Option<ConclusionRef>,
    risk: Option<Uuid>)

  datatype RiskStatus = UnderInvestigation | Final(disposition: Disposition)

  datatype Risk = Risk(status: RiskStatus, version: nat)

  datatype Rule = Rule(version: nat)

  datatype Error =
    | IdempotencyConflict
    | RevisionConflict
    | ProposalNotFound
    | AlreadyDecided
    | ProposalExpired
    | NonceUsed
    | TaskNotFound
    | VersionConflict
    | StatusConflict
    | NotResolved
    | ConclusionRequired
    | DispositionRequired
    | MissingKey  // a dictionary lookup that found nothing
    | RoleRequired
    | SelfApprovalDenied
    | ApprovalRequired
    | GrantActorMismatch
    | SignatureInvalid
    | GrantExpired
}
