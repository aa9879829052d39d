/**
  The persisted execution facts of one Run and of its current authority
  (internal/run/model.go), as values. Times are nanoseconds on the database clock.
*/
module RunModel {
  import opened Wrappers
  import opened Identity

  type Time = int

  const SECOND: Time := 1_000_000_000
  const LEASE_TTL: Time := 30 * SECOND
  const ATTEMPT_TTL: Time := 180 * SECOND
  const PERMISSION_TTL: Time := 3600 * SECOND
  const MAX_RECOVERIES := 3
  const MAX_SAFE_INTEGER := 0x1F_FFFF_FFFF_FFFF
  const MAX_CHECKPOINT_BYTES := 262144
  const MAX_STEPS := 32
  const RESOLUTION_OPERATION := "apply_ticket_resolution"

  datatype State = Ready | Running | Stopping | RetryWait | AwaitingApproval | Succeeded | Failed | Cancelled {
    predicate Terminal() { Succeeded? || Failed? || Cancelled? }
    predicate Active() { Running? || Stopping? }
    predicate Waiting() { Ready? || RetryWait? || AwaitingApproval? }
  }

  datatype ErrorCode =
    | InvalidArgument | AlreadyTerminal | InvalidTransition | StaleLease | CancelRequested | StopRequested
    | StepConflict | CallConflict | CheckpointTooLarge | ApprovalExpired | Internal

  /** Stop causes and close reasons; Unregistered stands for every other text. */
  datatype Reason =
    | StopCancel | StopRunDeadline | StopAttemptTimeout
    | LeaseExpired | DependencyUnavailable | DependencyCode | Timeout
    | Permanent(code: PermanentCode) | Unregistered(text: string)
  {
    predicate Stop() { StopCancel? || StopRunDeadline? || StopAttemptTimeout? }

    predicate Recoverable() {
      LeaseExpired? || DependencyUnavailable? || DependencyCode? || StopAttemptTimeout? || Timeout?
    }

    predicate ValidClose() {
      StopCancel? || StopRunDeadline? || Recoverable() || Permanent?
    }
  }

  datatype PermanentCode =
    | CodeInvalidArgument | CodeProfileUnavailable | CodeBudgetExhausted | CodeExecutorProtocol | CodeModelProtocol
    | CodeModelUnsupported | CodeCheckpointTooLarge | CodeActionConflict | CodeAuthorizationExpired | CodeOutcomeUnknown

  datatype FailureCode =
    | RunDeadlineExceeded | ApprovalWindowExpired | LeaseExpiredCode | AttemptDeadlineExceeded
    | DependencyUnavailableCode | Reported(reason: Reason)

  function FailureCodeOf(reason: Reason): FailureCode {
    match reason
    case LeaseExpired => LeaseExpiredCode
    case StopAttemptTimeout => AttemptDeadlineExceeded
    case DependencyUnavailable => DependencyUnavailableCode
    case DependencyCode => DependencyUnavailableCode
    case _ => Reported(reason)
  }

  /** The facts fixed when a Run is submitted. */
  datatype RunIdentity = RunIdentity(id: string, tenantId: string, profileId: string, profileHash: string,
                                     snapshotId: string, snapshotHash: string, runDeadline: Time)

  datatype RunView = RunView(
    identity: RunIdentity, state: State, outcome: Option<string>, error: Option<FailureCode>,
    attemptNo: int, recoveryCount: int, cursorVersion: int,
    attemptDeadline: Option<Time>, leaseUntil: Option<Time>, nextAttemptAt: Option<Time>,
    permissionExpiresAt: Option<Time>, proposalRef: Option<string>,
    stopReason: Option<Reason>, cancelRequestedAt: Option<Time>, updatedAt: Time)

  datatype AuthorityView = AuthorityView(
    workerId: string, sessionId: string, fencingToken: int, activeCallId: Option<string>, checkpointBytes: int,
    nextStepId: string, nextStepKind: string, nextInputHash: string)

  datatype Lease = Lease(tenantId: string, runId: string, workerId: string, sessionId: string, attemptNo: int, fencingToken: int)

  /** What a commit asks to record, and what the registered graph decided about it. */
  datatype CommitRequest = CommitRequest(lease: Lease, step: StepIdentity, commitHash: string)

  datatype CommitDecision = CommitDecision(canonical: string, nextKind: string, closeAttempt: bool, proposal: Option<string>)

  datatype ApprovalRequest = ApprovalRequest(decision: string)

  function MinTime(first: Time, second: Time): (least: Time)
    ensures least <= first && least <= second && (least == first || least == second)
  {
    if first < second then first else second
  }

  predicate After(t: Option<Time>, now: Time) {
    t.Some? && t.value > now
  }

  predicate ValidStepKind(kind: string) {
    kind in {"read_ticket", "get_order", "get_delivery", "search_policy", "read_policy_bundle", "model_proposal",
             "model_decision", "protocol_correction", "submit_proposal", RESOLUTION_OPERATION}
  }
}
