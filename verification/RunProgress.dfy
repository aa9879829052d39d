/**
  What each step of a Run achieves, from every state a run can reach: who may execute and for how long,
  when a commit is taken, what a recovery costs and keeps, and that cancelling, stopping, approving and
  sweeping do what they are for. Times and delays are written out in seconds.
*/
module RunProgress {
  import opened Wrappers
  import opened Identity
  import opened RunModel
  import opened RunPolicy
  import opened RunMachine

  // ---------- who executes ----------

  predicate Executes(s: System, lease: Lease, now: Time) {
    CheckExecution(s.run, s.auth, lease, now).Pass?
  }

  /** The lease of the latest claim. */
  predicate Current(s: System, lease: Lease) {
    && lease.tenantId == s.run.identity.tenantId && lease.runId == s.run.identity.id
    && lease.workerId == s.auth.workerId && lease.sessionId == s.auth.sessionId
    && lease.attemptNo == s.run.attemptNo && lease.fencingToken == s.auth.fencingToken
  }

  /** Exactly the latest claimant executes, exactly while its Run is running and its lease lasts; it is told of a stop, others are stale. */
  lemma CurrentLeaseExecutes(s: System, lease: Lease, now: Time)
    requires Inv(s, now)
    ensures Executes(s, lease, now) <==> s.run.state.Running? && Current(s, lease) && now < s.run.leaseUntil.value
    ensures !Executes(s, lease, now) ==>
              CheckExecution(s.run, s.auth, lease, now).error
              == if !s.run.state.Active() || !Current(s, lease) || s.run.leaseUntil.value <= now then StaleLease
                 else if s.run.cancelRequestedAt.Some? then CancelRequested else StopRequested
    ensures HeartbeatRenewed(s.run, s.auth, lease, now).Success? <==> Executes(s, lease, now)
  {
  }

  /** What a Run has done and what it does next. */
  predicate SameWork(s: System, t: System) {
    && t.commits == s.commits && t.run.cursorVersion == s.run.cursorVersion && t.auth.checkpointBytes == s.auth.checkpointBytes
    && t.auth.nextStepId == s.auth.nextStepId && t.auth.nextStepKind == s.auth.nextStepKind
    && t.auth.nextInputHash == s.auth.nextInputHash && t.run.identity == s.run.identity
  }

  /** A started attempt: its owner, thirty seconds of lease and a hundred and eighty of attempt, unless the Run ends before. */
  predicate Started(s: System, t: System, worker: string, session: string, now: Time) {
    && t.run.state.Running? && t.run.attemptNo == s.run.attemptNo + 1 && t.auth.fencingToken == s.auth.fencingToken + 1
    && t.auth.workerId == worker && t.auth.sessionId == session
    && t.run.leaseUntil == Some(MinTime(now + 30 * SECOND, s.run.identity.runDeadline))
    && t.run.attemptDeadline == Some(MinTime(now + 180 * SECOND, s.run.identity.runDeadline))
    && t.run.recoveryCount == s.run.recoveryCount && SameWork(s, t)
  }

  predicate Claimant(worker: string, session: string) {
    ValidIdentifier(worker) && ValidIdentifier(session)
  }

  /** A claim starts an attempt exactly on a ready Run before its deadline, and changes nothing otherwise. */
  lemma ClaimStartsExactly(h: string -> string, s: System, worker: string, session: string, now: Time)
    requires Inv(s, now)
    ensures var t := Next(h, s, Claim(worker, session), now);
            if Claimant(worker, session) && s.run.state.Ready? && now < s.run.identity.runDeadline
            then Started(s, t, worker, session, now) && t.approvals == s.approvals
            else t == s
  {
  }

  // ---------- what is committed ----------

  /** The one step the server awaits, with its place in the history. */
  predicate Awaited(s: System, step: StepIdentity) {
    && step.id == s.auth.nextStepId && step.kind == s.auth.nextStepKind && step.inputHash == s.auth.nextInputHash
    && step.sequence == |s.commits| + 1 && step.cursorVersion == |s.commits|
    && step.profileId == s.run.identity.profileId && step.profileHash == s.run.identity.profileHash
    && step.snapshotId == s.run.identity.snapshotId && step.snapshotHash == s.run.identity.snapshotHash
  }

  predicate WellFormed(step: StepIdentity) {
    && ValidUUID(step.id) && ValidHash(step.inputHash) && ValidHash(step.profileHash) && ValidHash(step.snapshotHash)
    && ValidIdentifier(step.profileId) && ValidUUID(step.snapshotId) && ValidStepKind(step.kind)
  }

  predicate Fits(s: System, size: nat) {
    |s.commits| < 32 && s.auth.checkpointBytes + size <= 256 * 1024
  }

  predicate Continues(decision: CommitDecision, nextStepId: string) {
    if decision.closeAttempt then decision.proposal.Some? else ValidStepKind(decision.nextKind) && ValidUUID(nextStepId)
  }

  /**
    A commit is taken exactly from the executing lease, for the awaited step, with no call open and within
    the limits, and if it says what follows.
  */
  lemma CommitTakenExactly(h: string -> string, s: System, req: CommitRequest, decision: CommitDecision, nextStepId: string, now: Time)
    requires Inv(s, now) && DecidableKind(req.step.kind) && DecidableKind(decision.nextKind)
    ensures Next(h, s, Commit(req, decision, nextStepId), now) != s <==>
              && Executes(s, req.lease, now) && Awaited(s, req.step) && WellFormed(req.step) && s.auth.activeCallId.None?
              && Fits(s, |decision.canonical|) && Continues(decision, nextStepId)
  {
    var t := Next(h, s, Commit(req, decision, nextStepId), now);
    if CommitRefusal(s.run, s.auth, req, decision, nextStepId, now).None? {
      assert |t.commits| == |s.commits| + 1;
    }
  }

  /** Where a taken commit leads: to the next step, to the wait for approval, or to the end without an action. */
  predicate Led(h: string -> string, s: System, t: System, req: CommitRequest, decision: CommitDecision, nextStepId: string, now: Time) {
    if !decision.closeAttempt then
      && t.auth.nextStepId == nextStepId && t.auth.nextStepKind == decision.nextKind
      && t.auth.nextInputHash == NextInputHash(h, s.run.identity.profileHash, s.run.identity.snapshotHash, |t.commits|, req.commitHash)
    else if decision.proposal == Some("proposal") then
      && t.run.state.AwaitingApproval? && t.run.proposalRef == Some("run-proposal:" + s.run.identity.id)
      && t.run.permissionExpiresAt == Some(MinTime(now + 3600 * SECOND, s.run.identity.runDeadline))
    else t.run.state.Succeeded? && t.run.outcome == Some("no_action")
  }

  /** A taken commit adds one record and leads on. */
  lemma CommitAdvances(h: string -> string, s: System, req: CommitRequest, decision: CommitDecision, nextStepId: string, now: Time)
    requires Inv(s, now) && Next(h, s, Commit(req, decision, nextStepId), now) != s
    ensures var t := Next(h, s, Commit(req, decision, nextStepId), now);
            && t.commits == s.commits + [CommitRecord(|s.commits| + 1, s.auth.fencingToken, |decision.canonical|)]
            && Led(h, s, t, req, decision, nextStepId, now)
  {
  }

  /** The same lease goes on executing after a commit that does not close its attempt, and none does after one that does. */
  lemma CommitKeepsLease(h: string -> string, s: System, req: CommitRequest, decision: CommitDecision, nextStepId: string, lease: Lease, now: Time)
    requires Inv(s, now) && Next(h, s, Commit(req, decision, nextStepId), now) != s
    ensures Executes(Next(h, s, Commit(req, decision, nextStepId), now), lease, now)
            <==> !decision.closeAttempt && Executes(s, lease, now)
  {
  }

  // ---------- recoveries ----------

  /** The delay before the first, second and third recovery. */
  const DELAYS: seq<Time> := [1 * SECOND, 2 * SECOND, 4 * SECOND]

  predicate Over(deadline: Option<Time>, now: Time) {
    deadline.Some? && deadline.value <= now
  }

  /** A failure that another attempt may cure, at a moment at which it may be reported. */
  predicate Curable(s: System, reason: Reason, now: Time) {
    && s.run.state.Running? && now < s.run.identity.runDeadline
    && match reason
       case LeaseExpired => Over(s.run.leaseUntil, now)
       case StopAttemptTimeout => Over(s.run.attemptDeadline, now)
       case DependencyUnavailable => true
       case DependencyCode => true
       case Timeout => true
       case _ => false
  }

  /** What is recorded of a curable failure. */
  function CureCode(reason: Reason): FailureCode {
    if reason.LeaseExpired? then LeaseExpiredCode
    else if reason.StopAttemptTimeout? then AttemptDeadlineExceeded
    else if reason.Timeout? then Reported(Timeout)
    else DependencyUnavailableCode
  }

  /** A curable failure is retried three times, after one, two and four seconds, and the fourth is the end. */
  lemma FailureIsRetried(h: string -> string, s: System, reason: Reason, now: Time)
    requires Inv(s, now) && Curable(s, reason, now)
    ensures var t, outcome := Next(h, s, Close(reason), now), ClosedRun(s.run, reason, now).1;
            && t.auth.workerId == "" && t.auth.sessionId == "" && t.run.error == Some(CureCode(reason))
            && outcome == (if s.run.recoveryCount < 3 then (if reason.LeaseExpired? then LeaseExpiredRetry else FailedRetry)
                           else if reason.LeaseExpired? then LeaseExpiredTerminal else FailedTerminal)
            && (if s.run.recoveryCount < 3 then
                  && t.run.state.RetryWait? && t.run.recoveryCount == s.run.recoveryCount + 1
                  && t.run.nextAttemptAt == Some(now + DELAYS[s.run.recoveryCount]) && SameWork(s, t)
                else t.run.state.Failed?)
  {
    DelaysOf(s.run.recoveryCount);
  }

  lemma DelaysOf(recoveries: int)
    requires 0 <= recoveries <= 3
    ensures recoveries < 3 ==> RetryDelay(recoveries) == DELAYS[recoveries]
  {
    assert RetryDelay(0) == SECOND && RetryDelay(1) == 2 * RetryDelay(0) && RetryDelay(2) == 2 * RetryDelay(1);
  }

  /** A retry that is due becomes ready at the first sweep, and not before it is due. */
  lemma RetryReadied(h: string -> string, s: System, now: Time)
    requires Inv(s, now) && s.run.state.RetryWait? && now < s.run.identity.runDeadline
    ensures var t := Next(h, s, Expire, now);
            if now < s.run.nextAttemptAt.value then t == s
            else t.run.state.Ready? && t.run.nextAttemptAt.None? && t.run.recoveryCount == s.run.recoveryCount && SameWork(s, t)
  {
  }

  /**
    A recovery loses nothing and repeats nothing: after a curable failure, one sweep when the delay is over
    and one claim, the Run is running again under the next attempt and token, with the same history and the
    same step to do.
  */
  lemma RecoveryResumes(h: string -> string, s: System, reason: Reason, worker: string, session: string, failed: Time, due: Time, resumed: Time)
    requires Inv(s, failed) && Curable(s, reason, failed)
    requires s.run.recoveryCount < 3 && Claimant(worker, session)
    requires failed + DELAYS[s.run.recoveryCount] <= due <= resumed < s.run.identity.runDeadline
    ensures var t := Execute(h, s, [Moment(Close(reason), failed), Moment(Expire, due), Moment(Claim(worker, session), resumed)]);
            && t.run.state.Running? && t.run.attemptNo == s.run.attemptNo + 1 && t.auth.fencingToken == s.auth.fencingToken + 1
            && t.auth.workerId == worker && t.auth.sessionId == session && t.run.recoveryCount == s.run.recoveryCount + 1
            && t.run.leaseUntil == Some(MinTime(resumed + 30 * SECOND, s.run.identity.runDeadline)) && SameWork(s, t)
            && t.approvals == s.approvals
  {
    var closed := Next(h, s, Close(reason), failed);
    var ready := Next(h, closed, Expire, due);
    FailureIsRetried(h, s, reason, failed);
    InvNext(h, s, Close(reason), failed);
    InvLater(closed, failed, due);
    RetryReadied(h, closed, due);
    InvNext(h, closed, Expire, due);
    InvLater(ready, due, resumed);
    ClaimStartsExactly(h, ready, worker, session, resumed);
    ThreeMoments(h, s, Moment(Close(reason), failed), Moment(Expire, due), Moment(Claim(worker, session), resumed));
  }

  lemma ThreeMoments(h: string -> string, s: System, a: Moment, b: Moment, c: Moment)
    ensures Execute(h, s, [a, b, c]) == Next(h, Next(h, Next(h, s, a.event, a.now), b.event, b.now), c.event, c.now)
  {
    assert [a, b, c][1..] == [b, c] && [b, c][1..] == [c] && [c][1..] == [];
    var first := Next(h, s, a.event, a.now);
    var second := Next(h, first, b.event, b.now);
    assert Execute(h, s, [a, b, c]) == Execute(h, first, [b, c]) == Execute(h, second, [c]);
  }

  /** A permanent failure ends the Run at once, with its own code. */
  lemma PermanentFailureEnds(h: string -> string, s: System, reason: Reason, now: Time)
    requires Inv(s, now) && s.run.state.Running? && now < s.run.identity.runDeadline && reason.Permanent?
    ensures var t := Next(h, s, Close(reason), now);
            t.run.state.Failed? && t.run.error == Some(Reported(reason)) && t.auth.workerId == "" && t.commits == s.commits
  {
  }

  // ---------- cancelling and stopping ----------

  /** A cancel ends a waiting Run at once; an active one stops executing at once and ends, cancelled, at whatever close comes. */
  lemma CancelTakesEffect(h: string -> string, s: System, reason: Reason, now: Time, later: Time)
    requires Inv(s, now) && !s.run.state.Terminal() && now <= later && reason.ValidClose()
    ensures var t := Next(h, s, Cancel, now);
            && t.run.cancelRequestedAt == Some(if s.run.cancelRequestedAt.Some? then s.run.cancelRequestedAt.value else now)
            && (s.run.state.Waiting() ==> t.run.state.Cancelled?)
            && (s.run.state.Active() ==>
                  && t.run.state.Stopping? && (forall lease :: !Executes(t, lease, later))
                  && Next(h, t, Close(reason), later).run.state.Cancelled?)
  {
    InvNext(h, s, Cancel, now);
    InvLater(Next(h, s, Cancel, now), now, later);
  }

  /** A deadline stops a running attempt exactly once it has passed. */
  predicate Passed(s: System, cause: Reason, now: Time) {
    || (cause.StopRunDeadline? && s.run.identity.runDeadline <= now)
    || (cause.StopAttemptTimeout? && Over(s.run.attemptDeadline, now))
  }

  /** A stopped attempt executes no more, and what it ends as is decided by its first cause, whatever close comes. */
  lemma StopTakesEffect(h: string -> string, s: System, cause: Reason, reason: Reason, now: Time)
    requires Inv(s, now) && s.run.state.Running? && !cause.StopCancel? && reason.ValidClose()
    ensures var t := Next(h, s, Stop(cause), now);
            if !Passed(s, cause, now) then t == s
            else
              var closed := Next(h, t, Close(reason), now);
              && t.run.state.Stopping? && t.run.stopReason == Some(cause) && (forall lease :: !Executes(t, lease, now))
              && (s.run.identity.runDeadline <= now ==> closed.run.state.Failed? && closed.run.error == Some(RunDeadlineExceeded))
              && (now < s.run.identity.runDeadline && (reason.LeaseExpired? ==> s.run.leaseUntil.value <= now) ==>
                    closed.run.error == Some(AttemptDeadlineExceeded)
                    && closed.run.state == if s.run.recoveryCount < 3 then RetryWait else Failed)
  {
    InvNext(h, s, Stop(cause), now);
  }

  // ---------- approvals ----------

  predicate Open(s: System, now: Time) {
    s.run.state.AwaitingApproval? && s.run.permissionExpiresAt.Some? && now < s.run.permissionExpiresAt.value && now < s.run.identity.runDeadline
  }

  /** A decision counts exactly while the window is open; a sweep fails the Run exactly once it is closed. */
  lemma ApprovalWindow(h: string -> string, s: System, request: ApprovalRequest, commitHash: string, decisionHash: string, nextId: string, now: Time)
    requires Inv(s, now) && s.run.state.AwaitingApproval?
    ensures var decided, swept := Next(h, s, Decide(request, commitHash, decisionHash, nextId), now), Next(h, s, Expire, now);
            if !Open(s, now) then
              && decided == s && swept.run.state.Failed?
              && swept.run.error == Some(if s.run.identity.runDeadline <= now then RunDeadlineExceeded else ApprovalWindowExpired)
            else
              && swept == s && decided.commits == s.commits
              && (if request.decision == "reject" then decided.run.state.Succeeded? && decided.run.outcome == Some("rejected")
                  else
                    && decided.run.state.Ready? && decided.auth.nextStepKind == RESOLUTION_OPERATION && decided.auth.nextStepId == nextId
                    && decided.auth.nextInputHash
                       == Fingerprint(h, ["jobforge.run.action-input.v1", s.run.identity.profileHash, s.run.identity.snapshotHash,
                                          commitHash, decisionHash]))
  {
  }

  /** The receipt of an approved Run's executing lease completes it: one more record, within the limits, and the applied outcome. */
  lemma ResolutionCompletes(h: string -> string, s: System, lease: Lease, step: StepIdentity, output: string, now: Time)
    requires Inv(s, now)
    ensures var t := Next(h, s, Resolve(lease, step, output), now);
            if Executes(s, lease, now) && s.approvals == 1 && Awaited(s, step) && WellFormed(step) && Fits(s, |output|) then
              && t.run.state.Succeeded? && t.run.outcome == Some("applied") && t.auth.workerId == ""
              && t.commits == s.commits + [CommitRecord(|s.commits| + 1, s.auth.fencingToken, |output|)]
            else t == s
  {
  }

  /** An approved Run is carried out: decided in its window, claimed and completed, it ends as applied. */
  lemma ApprovedRunApplies(h: string -> string, s: System, request: ApprovalRequest, commitHash: string, decisionHash: string, nextId: string,
                           worker: string, session: string, output: string, decided: Time, claimed: Time, completed: Time)
    requires Inv(s, decided) && Open(s, decided) && request.decision != "reject" && Claimant(worker, session) && Fits(s, |output|)
    requires decided <= claimed <= completed < MinTime(claimed + 30 * SECOND, s.run.identity.runDeadline)
    requires var t := Next(h, s, Decide(request, commitHash, decisionHash, nextId), decided);
             WellFormed(PendingStep(t.run, t.auth))
    ensures var t := Next(h, s, Decide(request, commitHash, decisionHash, nextId), decided);
            var lease := Lease(s.run.identity.tenantId, s.run.identity.id, worker, session, s.run.attemptNo + 1, s.auth.fencingToken + 1);
            var moments := [Moment(Decide(request, commitHash, decisionHash, nextId), decided), Moment(Claim(worker, session), claimed),
                            Moment(Resolve(lease, PendingStep(t.run, t.auth), output), completed)];
            var end := Execute(h, s, moments);
            end.run.state.Succeeded? && end.run.outcome == Some("applied") && |end.commits| == |s.commits| + 1
  {
    var decide := Decide(request, commitHash, decisionHash, nextId);
    var t := Next(h, s, decide, decided);
    var lease := Lease(s.run.identity.tenantId, s.run.identity.id, worker, session, s.run.attemptNo + 1, s.auth.fencingToken + 1);
    var step, u := PendingStep(t.run, t.auth), Next(h, t, Claim(worker, session), claimed);
    ApprovalWindow(h, s, request, commitHash, decisionHash, nextId, decided);
    InvNext(h, s, decide, decided);
    InvLater(t, decided, claimed);
    ClaimStartsExactly(h, t, worker, session, claimed);
    InvNext(h, t, Claim(worker, session), claimed);
    InvLater(u, claimed, completed);
    CurrentLeaseExecutes(u, lease, completed);
    ResolutionCompletes(h, u, lease, step, output, completed);
    ThreeMoments(h, s, Moment(decide, decided), Moment(Claim(worker, session), claimed), Moment(Resolve(lease, step, output), completed));
  }

  // ---------- how a refusal is explained ----------

  /** Nothing is asked of a Run that has ended: every operation that could be meant says so. */
  lemma EndedRunRefuses(s: System, worker: string, session: string, reason: Reason, now: Time)
    requires s.run.state.Terminal()
    ensures Claimant(worker, session) ==> ClaimRefusal(s.run, s.auth, worker, session, now) == Some(AlreadyTerminal)
    ensures CancelledBy(s.run, now) == Failure(AlreadyTerminal) && WaitingExpired(s.run, now) == Failure(AlreadyTerminal)
    ensures reason.Stop() ==> StoppedBy(s.run, reason, now) == Failure(AlreadyTerminal)
    ensures reason.ValidClose() ==> CloseRefusal(s.run, reason, now) == Some(AlreadyTerminal)
  {
  }

  /** What makes no sense at all is an invalid argument; what makes none now is an invalid transition. */
  lemma RefusalsExplained(s: System, worker: string, session: string, reason: Reason, now: Time)
    requires Inv(s, now)
    ensures !Claimant(worker, session) ==> ClaimRefusal(s.run, s.auth, worker, session, now) == Some(InvalidArgument)
    ensures !reason.Stop() ==> StoppedBy(s.run, reason, now) == Failure(InvalidArgument)
    ensures !reason.ValidClose() ==> CloseRefusal(s.run, reason, now) == Some(InvalidArgument)
    ensures !s.run.state.Terminal() && Claimant(worker, session) && ClaimRefusal(s.run, s.auth, worker, session, now).Some? ==>
              ClaimRefusal(s.run, s.auth, worker, session, now) == Some(InvalidTransition)
    ensures !s.run.state.Terminal() && reason.Stop() && StoppedBy(s.run, reason, now).Failure? ==>
              StoppedBy(s.run, reason, now) == Failure(InvalidTransition)
    ensures !s.run.state.Terminal() && reason.ValidClose() && CloseRefusal(s.run, reason, now).Some? ==>
              CloseRefusal(s.run, reason, now) == Some(InvalidTransition)
    ensures s.run.state.Active() ==> WaitingExpired(s.run, now) == Failure(InvalidTransition)
  {
  }

  /** A heartbeat that is refused tells the claimant of its stop, even when its lease is over, and everyone else that they are stale. */
  lemma RefusedBeatExplained(s: System, lease: Lease, now: Time)
    requires Inv(s, now) && HeartbeatRenewed(s.run, s.auth, lease, now).Failure?
    ensures HeartbeatRenewed(s.run, s.auth, lease, now).error
            == if !s.run.state.Stopping? || !Current(s, lease) then StaleLease
               else if s.run.cancelRequestedAt.Some? then CancelRequested else StopRequested
  {
  }

  /** Why a commit from the executing lease is refused: malformed, not the awaited step, a call still open, too large, or leading nowhere. */
  lemma RefusedCommitExplained(s: System, req: CommitRequest, decision: CommitDecision, nextStepId: string, now: Time)
    requires Inv(s, now) && Executes(s, req.lease, now) && CommitRefusal(s.run, s.auth, req, decision, nextStepId, now).Some?
    ensures WellFormed(req.step) && 1 <= req.step.sequence <= 32 && 0 <= req.step.cursorVersion < 32 ==>
              CommitRefusal(s.run, s.auth, req, decision, nextStepId, now).value
              == if !Awaited(s, req.step) then StepConflict else if s.auth.activeCallId.Some? then CallConflict
                 else if !Fits(s, |decision.canonical|) then CheckpointTooLarge else Internal
    ensures !(WellFormed(req.step) && 1 <= req.step.sequence <= 32 && 0 <= req.step.cursorVersion < 32) ==>
              CommitRefusal(s.run, s.auth, req, decision, nextStepId, now) == Some(InvalidArgument)
  {
  }

  /** Whatever changes a Run records when. */
  lemma ChangesAreStamped(h: string -> string, s: System, e: Event, now: Time)
    requires Inv(s, now) && Next(h, s, e, now).run != s.run
    ensures Next(h, s, e, now).run.updatedAt == now
  {
  }
}
