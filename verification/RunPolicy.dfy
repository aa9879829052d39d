/**
  Run transitions (internal/run/policy.go, internal/run/checkpoint.go, internal/run/action.go).
  Each transition is specified by a function from the old facts to the new facts or an
  error, and implemented by a method that updates the two records in place.
*/
module RunPolicy {
  import opened Wrappers
  import opened Identity
  import opened RunModel

  // ---------- specifications ----------

  predicate MatchesExecution(r: RunView, a: AuthorityView, lease: Lease) {
    && r.identity.id == lease.runId && r.identity.tenantId == lease.tenantId
    && a.workerId != "" && a.workerId == lease.workerId
    && a.sessionId != "" && a.sessionId == lease.sessionId
    && r.attemptNo > 0 && r.attemptNo == lease.attemptNo
    && a.fencingToken > 0 && a.fencingToken == lease.fencingToken
  }

  function CheckExecution(r: RunView, a: AuthorityView, lease: Lease, now: Time): Outcome<ErrorCode> {
    if !MatchesExecution(r, a, lease) || !r.state.Active() || !After(r.leaseUntil, now) then Fail(StaleLease)
    else if r.cancelRequestedAt.Some? then Fail(CancelRequested)
    else if r.state.Stopping? || !After(r.attemptDeadline, now) || r.identity.runDeadline <= now then Fail(StopRequested)
    else Pass
  }

  function ClaimRefusal(r: RunView, a: AuthorityView, workerId: string, sessionId: string, now: Time): Option<ErrorCode> {
    if !ValidIdentifier(workerId) || !ValidIdentifier(sessionId) then Some(InvalidArgument)
    else if r.state.Terminal() then Some(AlreadyTerminal)
    else if !r.state.Ready? || r.identity.runDeadline <= now || r.cancelRequestedAt.Some? || a.workerId != "" || a.sessionId != ""
            || a.activeCallId.Some? || r.leaseUntil.Some? then Some(InvalidTransition)
    else if !(0 <= r.attemptNo < MAX_SAFE_INTEGER && 0 <= a.fencingToken < MAX_SAFE_INTEGER
              && 0 <= r.recoveryCount <= MAX_RECOVERIES) then Some(Internal)
    else None
  }

  function ClaimedRun(r: RunView, now: Time): RunView {
    var attemptDeadline := MinTime(now + ATTEMPT_TTL, r.identity.runDeadline);
    r.(state := Running, attemptNo := r.attemptNo + 1, attemptDeadline := Some(attemptDeadline),
       leaseUntil := Some(MinTime(now + LEASE_TTL, attemptDeadline)), nextAttemptAt := None, stopReason := None, error := None,
       updatedAt := now)
  }

  function ClaimedAuthority(a: AuthorityView, workerId: string, sessionId: string): AuthorityView {
    a.(workerId := workerId, sessionId := sessionId, fencingToken := a.fencingToken + 1)
  }

  /** The lease that names the current execution. */
  function LeaseOf(r: RunView, a: AuthorityView): Lease {
    Lease(r.identity.tenantId, r.identity.id, a.workerId, a.sessionId, r.attemptNo, a.fencingToken)
  }

  function Finished(r: RunView, state: State, code: Option<FailureCode>, now: Time): RunView {
    r.(state := state, updatedAt := now, leaseUntil := None, attemptDeadline := None, nextAttemptAt := None, error := code)
  }

  function CancelledBy(r: RunView, now: Time): Result<RunView, ErrorCode> {
    if r.state.Terminal() then Failure(AlreadyTerminal)
    else if r.cancelRequestedAt.Some? then Success(r)
    else
      var marked := r.(cancelRequestedAt := Some(now), updatedAt := now);
      if r.state.Active() then
        Success(marked.(state := Stopping, stopReason := if r.stopReason.None? then Some(StopCancel) else r.stopReason))
      else Success(Finished(marked, Cancelled, None, now))
  }

  function StoppedBy(r: RunView, reason: Reason, now: Time): Result<RunView, ErrorCode> {
    if !reason.Stop() then Failure(InvalidArgument)
    else if r.state.Terminal() then Failure(AlreadyTerminal)
    else if !r.state.Active() then Failure(InvalidTransition)
    else if reason.StopCancel? then CancelledBy(r, now)
    else if (reason.StopRunDeadline? && now < r.identity.runDeadline)
            || (reason.StopAttemptTimeout? && (r.attemptDeadline.None? || now < r.attemptDeadline.value)) then Failure(InvalidTransition)
    else if r.state.Stopping? then Success(r)
    else Success(r.(state := Stopping, stopReason := Some(reason), updatedAt := now))
  }

  function HeartbeatRenewed(r: RunView, a: AuthorityView, lease: Lease, now: Time): Result<RunView, ErrorCode> {
    if !MatchesExecution(r, a, lease) then Failure(StaleLease)
    else if r.state.Stopping? then Failure(if r.cancelRequestedAt.Some? then CancelRequested else StopRequested)
    else
      match CheckExecution(r, a, lease, now)
      case Fail(error) => Failure(error)
      case Pass =>
        var leaseUntil := MinTime(now + LEASE_TTL, MinTime(r.attemptDeadline.value, r.identity.runDeadline));
        Success(r.(leaseUntil := Some(leaseUntil), updatedAt := now))
  }

  datatype CloseOutcome = FailedTerminal | CancelledAttempt | FailedRetry | LeaseExpiredTerminal | LeaseExpiredRetry

  function RetryDelay(recoveries: int): Time {
    if recoveries <= 0 then SECOND else 2 * RetryDelay(recoveries - 1)
  }

  function Relinquished(a: AuthorityView): AuthorityView {
    a.(workerId := "", sessionId := "", activeCallId := None)
  }

  function CloseRefusal(r: RunView, reason: Reason, now: Time): Option<ErrorCode> {
    if !reason.ValidClose() then Some(InvalidArgument)
    else if r.state.Terminal() then Some(AlreadyTerminal)
    else if !r.state.Active() then Some(InvalidTransition)
    else if !(0 <= r.recoveryCount <= MAX_RECOVERIES) then Some(Internal)
    else if r.state.Stopping? && !(r.stopReason.Some? && r.stopReason.value.Stop()) then Some(Internal)
    else
      var effective := EffectiveReason(r, reason);
      if r.cancelRequestedAt.None? && now < r.identity.runDeadline
         && (effective.StopCancel? || effective.StopRunDeadline?
             || (effective.StopAttemptTimeout? && (r.attemptDeadline.None? || now < r.attemptDeadline.value))
             || (reason.LeaseExpired? && (r.leaseUntil.None? || now < r.leaseUntil.value)))
      then Some(InvalidTransition)
      else None
  }

  /** The first stop cause outranks the reason given when the attempt closes. */
  function EffectiveReason(r: RunView, reason: Reason): Reason {
    if r.state.Stopping? && r.stopReason.Some? then r.stopReason.value else reason
  }

  function ClosedRun(r: RunView, reason: Reason, now: Time): (RunView, CloseOutcome) {
    var effective := EffectiveReason(r, reason);
    if r.cancelRequestedAt.Some? then (Finished(r, Cancelled, None, now), CancelledAttempt)
    else if r.identity.runDeadline <= now then (Finished(r, Failed, Some(RunDeadlineExceeded), now), FailedTerminal)
    else if !effective.Recoverable() then (Finished(r, Failed, Some(FailureCodeOf(effective)), now), FailedTerminal)
    else if r.recoveryCount >= MAX_RECOVERIES then
      (Finished(r, Failed, Some(FailureCodeOf(effective)), now), if reason.LeaseExpired? then LeaseExpiredTerminal else FailedTerminal)
    else (RetryScheduled(r, FailureCodeOf(effective), now), if reason.LeaseExpired? then LeaseExpiredRetry else FailedRetry)
  }

  function RetryScheduled(r: RunView, code: FailureCode, now: Time): RunView {
    r.(state := RetryWait, recoveryCount := r.recoveryCount + 1, nextAttemptAt := Some(now + RetryDelay(r.recoveryCount)),
       error := Some(code), leaseUntil := None, attemptDeadline := None, updatedAt := now)
  }

  function WaitingExpired(r: RunView, now: Time): Result<RunView, ErrorCode> {
    if r.state.Terminal() then Failure(AlreadyTerminal)
    else if !r.state.Waiting() then Failure(InvalidTransition)
    else if r.cancelRequestedAt.Some? then Success(Finished(r, Cancelled, None, now))
    else if r.identity.runDeadline <= now then Success(Finished(r, Failed, Some(RunDeadlineExceeded), now))
    else
      match r.state
      case AwaitingApproval =>
        if r.permissionExpiresAt.None? then Failure(Internal)
        else if r.permissionExpiresAt.value <= now then Success(Finished(r, Failed, Some(ApprovalWindowExpired), now)) else Success(r)
      case RetryWait =>
        if r.nextAttemptAt.None? then Failure(Internal)
        else if r.nextAttemptAt.value <= now then Success(r.(state := Ready, nextAttemptAt := None, updatedAt := now)) else Success(r)
      case _ => Success(r)
  }

  function CheckStep(r: RunView, a: AuthorityView, step: StepIdentity): Outcome<ErrorCode> {
    if !(&& ValidUUID(step.id) && 1 <= step.sequence <= 32 && 0 <= step.cursorVersion < 32
         && ValidHash(step.inputHash) && ValidHash(step.profileHash) && ValidHash(step.snapshotHash)
         && ValidIdentifier(step.profileId) && ValidUUID(step.snapshotId) && ValidStepKind(step.kind)) then Fail(InvalidArgument)
    else if step != PendingStep(r, a) then Fail(StepConflict)
    else Pass
  }

  /** The step the server expects next; only this one can be committed. */
  function PendingStep(r: RunView, a: AuthorityView): StepIdentity {
    StepIdentity(a.nextStepId, r.cursorVersion + 1, a.nextStepKind, r.cursorVersion, a.nextInputHash,
                 r.identity.profileId, r.identity.profileHash, r.identity.snapshotId, r.identity.snapshotHash)
  }

  predicate MayYield(r: RunView, now: Time) {
    r.state.Running? && now < r.identity.runDeadline
  }

  function Yielded(r: RunView, now: Time): RunView {
    r.(state := AwaitingApproval, permissionExpiresAt := Some(MinTime(now + PERMISSION_TTL, r.identity.runDeadline)),
       proposalRef := Some("run-proposal:" + r.identity.id), updatedAt := now)
  }

  function CommitRefusal(r: RunView, a: AuthorityView, req: CommitRequest, decision: CommitDecision, nextStepId: string, now: Time)
    : Option<ErrorCode>
  {
    var execution, step := CheckExecution(r, a, req.lease, now), CheckStep(r, a, req.step);
    if execution.Fail? then Some(execution.error)
    else if step.Fail? then Some(step.error)
    else if a.activeCallId.Some? then Some(CallConflict)
    else if !(r.cursorVersion < MAX_STEPS && 0 <= a.checkpointBytes <= MAX_CHECKPOINT_BYTES
              && |decision.canonical| <= MAX_CHECKPOINT_BYTES - a.checkpointBytes) then Some(CheckpointTooLarge)
    else if !decision.closeAttempt && !(ValidStepKind(decision.nextKind) && ValidUUID(nextStepId)) then Some(Internal)
    else if decision.closeAttempt && decision.proposal.None? then Some(Internal)
    else None
  }

  function CommittedRun(r: RunView, decision: CommitDecision, now: Time): RunView {
    var advanced := r.(cursorVersion := r.cursorVersion + 1, updatedAt := now);
    if !decision.closeAttempt then advanced
    else if decision.proposal == Some("proposal") then Yielded(advanced, now)
    else advanced.(state := Succeeded, outcome := Some("no_action"))
  }

  function CommittedAuthority(h: string -> string, r: RunView, a: AuthorityView, req: CommitRequest, decision: CommitDecision,
                              nextStepId: string): AuthorityView
  {
    var charged := a.(checkpointBytes := a.checkpointBytes + |decision.canonical|);
    if decision.closeAttempt then charged
    else charged.(nextStepId := nextStepId, nextStepKind := decision.nextKind,
                  nextInputHash := NextInputHash(h, r.identity.profileHash, r.identity.snapshotHash, r.cursorVersion + 1, req.commitHash))
  }

  function ApprovalRefusal(r: RunView, now: Time): Option<ErrorCode> {
    if !r.state.AwaitingApproval? || r.cancelRequestedAt.Some? then Some(InvalidTransition)
    else if !After(r.permissionExpiresAt, now) || r.identity.runDeadline <= now then Some(ApprovalExpired)
    else None
  }

  function DecidedRun(r: RunView, request: ApprovalRequest, now: Time): RunView {
    if request.decision == "reject" then r.(state := Succeeded, outcome := Some("rejected"), updatedAt := now)
    else r.(state := Ready, updatedAt := now)
  }

  function DecidedAuthority(h: string -> string, r: RunView, a: AuthorityView, request: ApprovalRequest, proposalCommitHash: string,
                            decisionHash: string, nextId: string): AuthorityView
  {
    if request.decision == "reject" then a
    else a.(nextStepId := nextId, nextStepKind := RESOLUTION_OPERATION,
            nextInputHash := Fingerprint(h, ["jobforge.run.action-input.v1", r.identity.profileHash, r.identity.snapshotHash,
                                             proposalCommitHash, decisionHash]))
  }

  /** What the Run itself refuses of a receipt: the wrong step, authority or cursor, or bytes over the limit. */
  function ResolutionRefusal(r: RunView, a: AuthorityView, lease: Lease, step: StepIdentity, output: string, now: Time): Option<ErrorCode> {
    var execution, pending := CheckExecution(r, a, lease, now), CheckStep(r, a, step);
    if step.kind != RESOLUTION_OPERATION then Some(InvalidTransition)
    else if execution.Fail? then Some(execution.error)
    else if pending.Fail? then Some(pending.error)
    else if r.cursorVersion >= MAX_STEPS || a.checkpointBytes + |output| > MAX_CHECKPOINT_BYTES then Some(CheckpointTooLarge)
    else None
  }

  function ResolvedRun(r: RunView, now: Time): RunView {
    r.(cursorVersion := r.cursorVersion + 1, state := Succeeded, outcome := Some("applied"), updatedAt := now,
       leaseUntil := None, attemptDeadline := None)
  }

  function ResolvedAuthority(a: AuthorityView, output: string): AuthorityView {
    Relinquished(a.(checkpointBytes := a.checkpointBytes + |output|))
  }

  // ---------- records updated in place ----------

  class Run {
    const identity: RunIdentity
    var state: State
    var outcome: Option<string>
    var error: Option<FailureCode>
    var attemptNo: int
    var recoveryCount: int
    var cursorVersion: int
    var attemptDeadline: Option<Time>
    var leaseUntil: Option<Time>
    var nextAttemptAt: Option<Time>
    var permissionExpiresAt: Option<Time>
    var proposalRef: Option<string>
    var stopReason: Option<Reason>
    var cancelRequestedAt: Option<Time>
    var updatedAt: Time

    function View(): RunView
      reads this
    {
      RunView(identity, state, outcome, error, attemptNo, recoveryCount, cursorVersion, attemptDeadline, leaseUntil,
              nextAttemptAt, permissionExpiresAt, proposalRef, stopReason, cancelRequestedAt, updatedAt)
    }

    constructor (identity: RunIdentity, now: Time)
      ensures View() == Submitted(identity, now)
    {
      this.identity := identity;
      state, outcome, error, attemptNo, recoveryCount, cursorVersion := Ready, None, None, 0, 0, 0;
      attemptDeadline, leaseUntil, nextAttemptAt, permissionExpiresAt := None, None, None, None;
      proposalRef, stopReason, cancelRequestedAt, updatedAt := None, None, None, now;
    }
  }

  /** A newly submitted Run. */
  function Submitted(identity: RunIdentity, now: Time): RunView {
    RunView(identity, Ready, None, None, 0, 0, 0, None, None, None, None, None, None, None, now)
  }

  class Authority {
    var workerId: string
    var sessionId: string
    var fencingToken: int
    var activeCallId: Option<string>
    var checkpointBytes: int
    var nextStepId: string
    var nextStepKind: string
    var nextInputHash: string

    function View(): AuthorityView
      reads this
    {
      AuthorityView(workerId, sessionId, fencingToken, activeCallId, checkpointBytes, nextStepId, nextStepKind, nextInputHash)
    }

    constructor (stepId: string, inputHash: string)
      ensures View() == AuthorityView("", "", 0, None, 0, stepId, "read_ticket", inputHash)
    {
      workerId, sessionId, fencingToken, activeCallId, checkpointBytes := "", "", 0, None, 0;
      nextStepId, nextStepKind, nextInputHash := stepId, "read_ticket", inputHash;
    }
  }

  method InstallRun(r: Run, now: Time)
    modifies r
    ensures r.View() == ClaimedRun(old(r.View()), now)
  {
    var attemptDeadline := MinTime(now + ATTEMPT_TTL, r.identity.runDeadline);
    var leaseUntil := MinTime(now + LEASE_TTL, attemptDeadline);
    r.state, r.attemptNo := Running, r.attemptNo + 1;
    r.attemptDeadline, r.leaseUntil := Some(attemptDeadline), Some(leaseUntil);
    r.nextAttemptAt, r.stopReason, r.error := None, None, None;
    r.updatedAt := now;
  }

  method InstallAuthority(authority: Authority, workerId: string, sessionId: string)
    modifies authority
    ensures authority.View() == ClaimedAuthority(old(authority.View()), workerId, sessionId)
  {
    authority.workerId, authority.sessionId := workerId, sessionId;
    authority.fencingToken := authority.fencingToken + 1;
  }

  method ClaimExecution(r: Run, authority: Authority, workerId: string, sessionId: string, now: Time)
    returns (result: Result<Lease, ErrorCode>)
    modifies r, authority
    ensures result.Failure? <==> ClaimRefusal(old(r.View()), old(authority.View()), workerId, sessionId, now).Some?
    ensures result.Failure? ==>
              && Some(result.error) == ClaimRefusal(old(r.View()), old(authority.View()), workerId, sessionId, now)
              && unchanged(r) && unchanged(authority)
    ensures result.Success? ==>
              && r.View() == ClaimedRun(old(r.View()), now)
              && authority.View() == ClaimedAuthority(old(authority.View()), workerId, sessionId)
              && result.value == LeaseOf(r.View(), authority.View())
  {
    if !ValidIdentifier(workerId) || !ValidIdentifier(sessionId) {
      return Failure(InvalidArgument);
    }
    if r.state.Terminal() {
      return Failure(AlreadyTerminal);
    }
    if r.state != Ready || r.identity.runDeadline <= now || r.cancelRequestedAt != None || authority.workerId != ""
       || authority.sessionId != "" || authority.activeCallId != None || r.leaseUntil != None
    {
      return Failure(InvalidTransition);
    }
    if r.attemptNo < 0 || r.attemptNo >= MAX_SAFE_INTEGER || authority.fencingToken < 0 || authority.fencingToken >= MAX_SAFE_INTEGER
       || r.recoveryCount < 0 || r.recoveryCount > MAX_RECOVERIES
    {
      return Failure(Internal);
    }
    InstallRun(r, now);
    InstallAuthority(authority, workerId, sessionId);
    return Success(LeaseOf(r.View(), authority.View()));
  }

  method FinishRun(r: Run, state: State, code: Option<FailureCode>, now: Time)
    modifies r
    ensures r.View() == Finished(old(r.View()), state, code, now)
  {
    r.state, r.updatedAt := state, now;
    r.leaseUntil, r.attemptDeadline, r.nextAttemptAt := None, None, None;
    r.error := code;
  }

  method RequestCancel(r: Run, now: Time) returns (error: Option<ErrorCode>)
    modifies r
    ensures match CancelledBy(old(r.View()), now)
            case Success(run) => r.View() == run && error == None
            case Failure(e) => r.View() == old(r.View()) && error == Some(e)
  {
    if r.state.Terminal() {
      return Some(AlreadyTerminal);
    }
    if r.cancelRequestedAt != None {
      return None;
    }
    r.cancelRequestedAt := Some(now);
    r.updatedAt := now;
    if r.state.Active() {
      if r.stopReason == None {
        r.stopReason := Some(StopCancel);
      }
      r.state := Stopping;
      return None;
    }
    FinishRun(r, Cancelled, None, now);
    return None;
  }

  method RequestStop(r: Run, reason: Reason, now: Time) returns (error: Option<ErrorCode>)
    modifies r
    ensures match StoppedBy(old(r.View()), reason, now)
            case Success(run) => r.View() == run && error == None
            case Failure(e) => r.View() == old(r.View()) && error == Some(e)
  {
    if !reason.Stop() {
      return Some(InvalidArgument);
    }
    if r.state.Terminal() {
      return Some(AlreadyTerminal);
    }
    if !r.state.Active() {
      return Some(InvalidTransition);
    }
    if reason == StopCancel {
      error := RequestCancel(r, now);
      return;
    }
    if (reason == StopRunDeadline && now < r.identity.runDeadline)
       || (reason == StopAttemptTimeout && (r.attemptDeadline == None || now < r.attemptDeadline.value))
    {
      return Some(InvalidTransition);
    }
    if r.state == Stopping {
      return None;
    }
    r.state, r.stopReason, r.updatedAt := Stopping, Some(reason), now;
    return None;
  }

  method Heartbeat(r: Run, authority: Authority, lease: Lease, now: Time) returns (error: Option<ErrorCode>)
    modifies r
    ensures match HeartbeatRenewed(old(r.View()), authority.View(), lease, now)
            case Success(run) => r.View() == run && error == None
            case Failure(e) => r.View() == old(r.View()) && error == Some(e)
  {
    if !MatchesExecution(r.View(), authority.View(), lease) {
      return Some(StaleLease);
    }
    if r.state == Stopping {
      return if r.cancelRequestedAt != None then Some(CancelRequested) else Some(StopRequested);
    }
    var check := CheckExecution(r.View(), authority.View(), lease, now);
    if check.Fail? {
      return Some(check.error);
    }
    r.leaseUntil := Some(MinTime(now + LEASE_TTL, MinTime(r.attemptDeadline.value, r.identity.runDeadline)));
    r.updatedAt := now;
    return None;
  }

  method ScheduleRetry(r: Run, code: FailureCode, now: Time)
    modifies r
    ensures r.View() == RetryScheduled(old(r.View()), code, now)
  {
    var nextAttempt := now + RetryDelay(r.recoveryCount);
    r.recoveryCount := r.recoveryCount + 1;
    r.state, r.nextAttemptAt := RetryWait, Some(nextAttempt);
    r.error := Some(code);
    r.leaseUntil, r.attemptDeadline := None, None;
    r.updatedAt := now;
  }

  method ConvergeRun(r: Run, reason: Reason, effective: Reason, now: Time) returns (outcome: CloseOutcome)
    requires 0 <= r.recoveryCount <= MAX_RECOVERIES && effective == EffectiveReason(r.View(), reason)
    modifies r
    ensures (r.View(), outcome) == ClosedRun(old(r.View()), reason, now)
  {
    outcome := FailedTerminal;
    if r.cancelRequestedAt != None {
      outcome := CancelledAttempt;
      FinishRun(r, Cancelled, None, now);
    } else if r.identity.runDeadline <= now {
      FinishRun(r, Failed, Some(RunDeadlineExceeded), now);
    } else if effective.Recoverable() {
      if r.recoveryCount == MAX_RECOVERIES {
        outcome := if reason == LeaseExpired then LeaseExpiredTerminal else FailedTerminal;
        FinishRun(r, Failed, Some(FailureCodeOf(effective)), now);
      } else {
        outcome := if reason == LeaseExpired then LeaseExpiredRetry else FailedRetry;
        ScheduleRetry(r, FailureCodeOf(effective), now);
      }
    } else {
      FinishRun(r, Failed, Some(FailureCodeOf(effective)), now);
    }
  }

  method CloseAttempt(r: Run, authority: Authority, reason: Reason, now: Time) returns (result: Result<CloseOutcome, ErrorCode>)
    modifies r, authority
    ensures result.Failure? <==> CloseRefusal(old(r.View()), reason, now).Some?
    ensures result.Failure? ==>
              && Some(result.error) == CloseRefusal(old(r.View()), reason, now)
              && unchanged(r) && unchanged(authority)
    ensures result.Success? ==>
              && (r.View(), result.value) == ClosedRun(old(r.View()), reason, now)
              && authority.View() == Relinquished(old(authority.View()))
  {
    if !reason.ValidClose() {
      return Failure(InvalidArgument);
    }
    if r.state.Terminal() {
      return Failure(AlreadyTerminal);
    }
    if !r.state.Active() {
      return Failure(InvalidTransition);
    }
    if r.recoveryCount < 0 || r.recoveryCount > MAX_RECOVERIES {
      return Failure(Internal);
    }
    var effective := reason;
    if r.state == Stopping {
      if r.stopReason == None || !r.stopReason.value.Stop() {
        return Failure(Internal);
      }
      effective := r.stopReason.value;
    }
    if r.cancelRequestedAt == None && now < r.identity.runDeadline {
      if effective == StopCancel || effective == StopRunDeadline
         || (effective == StopAttemptTimeout && (r.attemptDeadline == None || now < r.attemptDeadline.value))
         || (reason == LeaseExpired && (r.leaseUntil == None || now < r.leaseUntil.value))
      {
        return Failure(InvalidTransition);
      }
    }
    var outcome := ConvergeRun(r, reason, effective, now);
    authority.workerId, authority.sessionId, authority.activeCallId := "", "", None;
    return Success(outcome);
  }

  method ExpireWaiting(r: Run, now: Time) returns (error: Option<ErrorCode>)
    modifies r
    ensures match WaitingExpired(old(r.View()), now)
            case Success(run) => r.View() == run && error == None
            case Failure(e) => r.View() == old(r.View()) && error == Some(e)
  {
    if r.state.Terminal() {
      return Some(AlreadyTerminal);
    }
    if !r.state.Waiting() {
      return Some(InvalidTransition);
    }
    if r.cancelRequestedAt != None {
      FinishRun(r, Cancelled, None, now);
      return None;
    }
    if r.identity.runDeadline <= now {
      FinishRun(r, Failed, Some(RunDeadlineExceeded), now);
      return None;
    }
    if r.state == AwaitingApproval {
      if r.permissionExpiresAt == None {
        return Some(Internal);
      }
      if r.permissionExpiresAt.value <= now {
        FinishRun(r, Failed, Some(ApprovalWindowExpired), now);
      }
    }
    if r.state == RetryWait {
      if r.nextAttemptAt == None {
        return Some(Internal);
      }
      if r.nextAttemptAt.value <= now {
        r.state, r.nextAttemptAt, r.updatedAt := Ready, None, now;
      }
    }
    return None;
  }

  method YieldForApproval(r: Run, now: Time) returns (error: Option<ErrorCode>)
    modifies r
    ensures error == if MayYield(old(r.View()), now) then None else Some(InvalidTransition)
    ensures r.View() == if error == None then Yielded(old(r.View()), now) else old(r.View())
  {
    if r.state != Running || r.identity.runDeadline <= now {
      return Some(InvalidTransition);
    }
    var expires := now + PERMISSION_TTL;
    if r.identity.runDeadline < expires {
      expires := r.identity.runDeadline;
    }
    r.state, r.permissionExpiresAt := AwaitingApproval, Some(expires);
    r.proposalRef, r.updatedAt := Some("run-proposal:" + r.identity.id), now;
    return None;
  }

  method AdvanceCursor(h: string -> string, r: Run, a: Authority, req: CommitRequest, decision: CommitDecision, nextStepId: string, now: Time)
    returns (error: Option<ErrorCode>)
    requires MayYield(r.View(), now) && (decision.closeAttempt ==> decision.proposal.Some?)
    modifies r, a
    ensures error == None
    ensures r.View() == CommittedRun(old(r.View()), decision, now)
    ensures a.View() == CommittedAuthority(h, old(r.View()), old(a.View()), req, decision, nextStepId)
  {
    r.cursorVersion := r.cursorVersion + 1;
    a.checkpointBytes := a.checkpointBytes + |decision.canonical|;
    r.updatedAt := now;
    if decision.closeAttempt {
      if decision.proposal.value == "proposal" {
        error := YieldForApproval(r, now);
        return;
      }
      r.state := Succeeded;
      r.outcome := Some("no_action");
      return None;
    }
    a.nextStepId, a.nextStepKind := nextStepId, decision.nextKind;
    a.nextInputHash := NextInputHash(h, r.identity.profileHash, r.identity.snapshotHash, r.cursorVersion, req.commitHash);
    return None;
  }

  /** The cursor moves before the yield is tried; the execution check already rules out an error there. */
  method ApplyCommit(h: string -> string, r: Run, a: Authority, req: CommitRequest, decision: CommitDecision, nextStepId: string, now: Time)
    returns (error: Option<ErrorCode>)
    modifies r, a
    ensures error == CommitRefusal(old(r.View()), old(a.View()), req, decision, nextStepId, now)
    ensures error != None ==> unchanged(r) && unchanged(a)
    ensures error == None ==>
              && r.View() == CommittedRun(old(r.View()), decision, now)
              && a.View() == CommittedAuthority(h, old(r.View()), old(a.View()), req, decision, nextStepId)
  {
    var execution := CheckExecution(r.View(), a.View(), req.lease, now);
    if execution.Fail? {
      return Some(execution.error);
    }
    var step := CheckStep(r.View(), a.View(), req.step);
    if step.Fail? {
      return Some(step.error);
    }
    if a.activeCallId != None {
      return Some(CallConflict);
    }
    if r.cursorVersion >= MAX_STEPS || a.checkpointBytes < 0 || a.checkpointBytes > MAX_CHECKPOINT_BYTES
       || |decision.canonical| > MAX_CHECKPOINT_BYTES - a.checkpointBytes
    {
      return Some(CheckpointTooLarge);
    }
    if !decision.closeAttempt && (!ValidStepKind(decision.nextKind) || !ValidUUID(nextStepId)) {
      return Some(Internal);
    }
    if decision.closeAttempt && decision.proposal == None {
      return Some(Internal);
    }
    error := AdvanceCursor(h, r, a, req, decision, nextStepId, now);
  }

  method DecideApproval(h: string -> string, r: Run, a: Authority, request: ApprovalRequest, proposalCommitHash: string,
                        decisionHash: string, nextId: string, now: Time) returns (error: Option<ErrorCode>)
    modifies r, a
    ensures error == ApprovalRefusal(old(r.View()), now)
    ensures error != None ==> unchanged(r) && unchanged(a)
    ensures error == None ==>
              && r.View() == DecidedRun(old(r.View()), request, now)
              && a.View() == DecidedAuthority(h, old(r.View()), old(a.View()), request, proposalCommitHash, decisionHash, nextId)
  {
    if r.state != AwaitingApproval || r.cancelRequestedAt != None {
      return Some(InvalidTransition);
    }
    if !After(r.permissionExpiresAt, now) || r.identity.runDeadline <= now {
      return Some(ApprovalExpired);
    }
    if request.decision == "reject" {
      r.state, r.outcome := Succeeded, Some("rejected");
    } else {
      r.state := Ready;
      a.nextStepId, a.nextStepKind := nextId, RESOLUTION_OPERATION;
      a.nextInputHash := Fingerprint(h, ["jobforge.run.action-input.v1", r.identity.profileHash, r.identity.snapshotHash, proposalCommitHash, decisionHash]);
    }
    r.updatedAt := now;
    return None;
  }

  method CloseApplied(r: Run, a: Authority, output: string, now: Time)
    modifies r, a
    ensures r.View() == ResolvedRun(old(r.View()), now) && a.View() == ResolvedAuthority(old(a.View()), output)
  {
    r.cursorVersion := r.cursorVersion + 1;
    a.checkpointBytes := a.checkpointBytes + |output|;
    r.state, r.outcome, r.updatedAt := Succeeded, Some("applied"), now;
    a.workerId, a.sessionId, a.activeCallId := "", "", None;
    r.leaseUntil, r.attemptDeadline := None, None;
  }

  /** The completion of an approved resolution; `output` is the step result that carries the receipt. */
  method CompleteAction(r: Run, a: Authority, lease: Lease, step: StepIdentity, output: string, now: Time) returns (error: Option<ErrorCode>)
    modifies r, a
    ensures error == ResolutionRefusal(old(r.View()), old(a.View()), lease, step, output, now)
    ensures error != None ==> unchanged(r) && unchanged(a)
    ensures error == None ==> r.View() == ResolvedRun(old(r.View()), now) && a.View() == ResolvedAuthority(old(a.View()), output)
  {
    if step.kind != RESOLUTION_OPERATION {
      return Some(InvalidTransition);
    }
    var execution := CheckExecution(r.View(), a.View(), lease, now);
    if execution.Fail? {
      return Some(execution.error);
    }
    var pending := CheckStep(r.View(), a.View(), step);
    if pending.Fail? {
      return Some(pending.error);
    }
    if r.cursorVersion >= MAX_STEPS || a.checkpointBytes + |output| > MAX_CHECKPOINT_BYTES {
      return Some(CheckpointTooLarge);
    }
    CloseApplied(r, a, output, now);
    return None;
  }
}
