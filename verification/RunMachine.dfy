/**
  Whole runs of the Run state machine: every interleaving of claims, heartbeats,
  cancellations, stops, closes, sweeps, commits, approvals and completed resolutions, at
  nondecreasing database times. A closing commit also clears the authority, as its transaction does.
*/
module RunMachine {
  import opened Wrappers
  import opened Identity
  import opened RunModel
  import opened RunPolicy

  datatype Event =
    | Claim(workerId: string, sessionId: string)
    | Cancel
    | Stop(reason: Reason)
    | Beat(lease: Lease)
    | Close(reason: Reason)
    | Expire
    | Commit(req: CommitRequest, decision: CommitDecision, nextStepId: string)
    | Decide(request: ApprovalRequest, proposalCommitHash: string, decisionHash: string, nextId: string)
    | Resolve(lease: Lease, step: StepIdentity, output: string)
    | TrackCall(callId: Option<string>)

  /** One accepted commit: its sequence, the fencing token that wrote it, and its size. */
  datatype CommitRecord = CommitRecord(sequence: int, token: int, size: int)

  datatype System = System(run: RunView, auth: AuthorityView, approvals: nat, commits: seq<CommitRecord>)

  datatype Moment = Moment(event: Event, now: Time)

  /** The registered graph neither accepts a model commit for the resolution step nor names it as the next (CommitGraph). */
  predicate DecidableKind(kind: string) {
    kind != RESOLUTION_OPERATION
  }

  function Initial(identity: RunIdentity, stepId: string, inputHash: string, now: Time): System {
    System(Submitted(identity, now), AuthorityView("", "", 0, None, 0, stepId, "read_ticket", inputHash), 0, [])
  }

  function Closed(r: RunView): RunView {
    r.(leaseUntil := None, attemptDeadline := None)
  }

  function Kept(s: System, outcome: Result<RunView, ErrorCode>): System {
    if outcome.Success? then s.(run := outcome.value) else s
  }

  predicate Taken(s: System, req: CommitRequest, decision: CommitDecision, nextStepId: string, now: Time) {
    && DecidableKind(req.step.kind) && DecidableKind(decision.nextKind)
    && CommitRefusal(s.run, s.auth, req, decision, nextStepId, now).None?
  }

  function Next(h: string -> string, s: System, e: Event, now: Time): System {
    match e
    case Claim(w, session) =>
      if ClaimRefusal(s.run, s.auth, w, session, now).Some? then s
      else s.(run := ClaimedRun(s.run, now), auth := ClaimedAuthority(s.auth, w, session))
    case Cancel => Kept(s, CancelledBy(s.run, now))
    case Stop(reason) => Kept(s, StoppedBy(s.run, reason, now))
    case Beat(lease) => Kept(s, HeartbeatRenewed(s.run, s.auth, lease, now))
    case Close(reason) =>
      if CloseRefusal(s.run, reason, now).Some? then s
      else s.(run := ClosedRun(s.run, reason, now).0, auth := Relinquished(s.auth))
    case Expire => Kept(s, WaitingExpired(s.run, now))
    case Commit(req, decision, nextStepId) =>
      if !Taken(s, req, decision, nextStepId, now) then s
      else
        var run, auth := CommittedRun(s.run, decision, now), CommittedAuthority(h, s.run, s.auth, req, decision, nextStepId);
        var record := CommitRecord(req.step.sequence, s.auth.fencingToken, |decision.canonical|);
        System(if decision.closeAttempt then Closed(run) else run, if decision.closeAttempt then Relinquished(auth) else auth,
               s.approvals, s.commits + [record])
    case Decide(request, commitHash, decisionHash, nextId) =>
      if ApprovalRefusal(s.run, now).Some? then s
      else
        System(DecidedRun(s.run, request, now), DecidedAuthority(h, s.run, s.auth, request, commitHash, decisionHash, nextId),
               s.approvals + (if request.decision == "reject" then 0 else 1), s.commits)
    case Resolve(lease, step, output) =>
      if ResolutionRefusal(s.run, s.auth, lease, step, output, now).Some? then s
      else
        System(ResolvedRun(s.run, now), ResolvedAuthority(s.auth, output), s.approvals,
               s.commits + [CommitRecord(step.sequence, s.auth.fencingToken, |output|)])
    case TrackCall(callId) =>
      if s.run.state.Active() then s.(auth := s.auth.(activeCallId := callId)) else s
  }

  function Execute(h: string -> string, s: System, trace: seq<Moment>): System
    decreases |trace|
  {
    if trace == [] then s else Execute(h, Next(h, s, trace[0].event, trace[0].now), trace[1..])
  }

  predicate Timely(trace: seq<Moment>, start: Time) {
    trace == [] || (start <= trace[0].now && Timely(trace[1..], trace[0].now))
  }

  function EndTime(trace: seq<Moment>, start: Time): Time {
    if trace == [] then start else EndTime(trace[1..], trace[0].now)
  }

  // ---------- the inductive invariant ----------

  function TotalSize(commits: seq<CommitRecord>): int {
    if commits == [] then 0 else TotalSize(commits[..|commits| - 1]) + commits[|commits| - 1].size
  }

  /** Exact attempt accounting: every claim is explained by a recovery, an approval or the attempt in progress. */
  predicate AttemptsAccounted(s: System) {
    var settled := s.run.recoveryCount + s.approvals;
    if s.run.state.Active() || s.run.state.AwaitingApproval? then s.run.attemptNo == settled + 1
    else if s.run.state.Terminal() then settled <= s.run.attemptNo <= settled + 1
    else s.run.attemptNo == settled
  }

  /** Active states, and only they, carry a lease and an owner; the deadlines are nested. */
  predicate DeadlinesNested(s: System, now: Time) {
    var r, a := s.run, s.auth;
    && r.leaseUntil.Some? == r.state.Active()
    && r.attemptDeadline.Some? == r.state.Active()
    && (a.workerId != "") == r.state.Active()
    && (a.sessionId != "") == r.state.Active()
    && (a.activeCallId.Some? ==> r.state.Active())
    && (r.state.Active() ==>
          && r.leaseUntil.value <= r.attemptDeadline.value <= r.identity.runDeadline
          && r.leaseUntil.value <= now + LEASE_TTL)
  }

  /** A recorded stop cause is a fact that still holds. */
  predicate StopsJustified(r: RunView, now: Time) {
    && (r.state.Stopping? ==> r.stopReason.Some? && r.attemptDeadline.Some? && CauseHolds(r, r.stopReason.value, now))
    && (r.state.Running? ==> r.stopReason.None?)
    && (r.cancelRequestedAt.Some? ==> r.state.Stopping? || r.state.Cancelled?)
  }

  predicate CauseHolds(r: RunView, cause: Reason, now: Time)
    requires r.attemptDeadline.Some?
  {
    match cause
    case StopCancel => r.cancelRequestedAt.Some?
    case StopRunDeadline => r.identity.runDeadline <= now
    case StopAttemptTimeout => r.attemptDeadline.value <= now
    case _ => false
  }

  predicate HistoryFenced(s: System) {
    && |s.commits| == s.run.cursorVersion <= MAX_STEPS
    && s.auth.checkpointBytes == TotalSize(s.commits) && 0 <= s.auth.checkpointBytes <= MAX_CHECKPOINT_BYTES
    && (forall i :: 0 <= i < |s.commits| ==> s.commits[i].sequence == i + 1 && 1 <= s.commits[i].token <= s.auth.fencingToken)
    && (forall i, j :: 0 <= i < j < |s.commits| ==> s.commits[i].token <= s.commits[j].token)
  }

  /** A Run has an outcome exactly when it succeeded, and the applied one exactly when it was approved as well. */
  predicate OutcomeExplained(s: System) {
    && (s.run.outcome.Some? <==> s.run.state.Succeeded?)
    && (s.run.outcome.Some? ==> (s.run.outcome.value == "applied" <==> s.approvals == 1))
  }

  predicate Inv(s: System, now: Time) {
    && 0 <= s.run.recoveryCount <= MAX_RECOVERIES
    && s.auth.fencingToken == s.run.attemptNo >= 0
    && s.approvals <= 1
    && (s.approvals == 1 <==> s.auth.nextStepKind == RESOLUTION_OPERATION)
    && (s.approvals == 1 ==> !s.run.state.AwaitingApproval?)
    && OutcomeExplained(s)
    && (s.run.state.AwaitingApproval? ==> s.run.permissionExpiresAt.Some?)
    && (s.run.state.RetryWait? ==> s.run.nextAttemptAt.Some?)
    && AttemptsAccounted(s) && DeadlinesNested(s, now) && StopsJustified(s.run, now) && HistoryFenced(s)
  }

  lemma InitialInv(identity: RunIdentity, stepId: string, inputHash: string, now: Time)
    ensures Inv(Initial(identity, stepId, inputHash, now), now)
  {
  }

  lemma InvClaim(s: System, w: string, session: string, now: Time)
    requires Inv(s, now) && ClaimRefusal(s.run, s.auth, w, session, now).None?
    ensures Inv(s.(run := ClaimedRun(s.run, now), auth := ClaimedAuthority(s.auth, w, session)), now)
  {
  }

  lemma InvClose(s: System, reason: Reason, now: Time)
    requires Inv(s, now) && CloseRefusal(s.run, reason, now).None?
    ensures Inv(s.(run := ClosedRun(s.run, reason, now).0, auth := Relinquished(s.auth)), now)
  {
  }

  lemma HistoryExtended(s: System, t: System, size: nat)
    requires HistoryFenced(s) && |s.commits| < MAX_STEPS && s.auth.fencingToken >= 1
    requires t.commits == s.commits + [CommitRecord(|s.commits| + 1, s.auth.fencingToken, size)] && t.auth.fencingToken == s.auth.fencingToken
    requires t.run.cursorVersion == s.run.cursorVersion + 1
    requires t.auth.checkpointBytes == s.auth.checkpointBytes + size <= MAX_CHECKPOINT_BYTES
    ensures HistoryFenced(t)
  {
    assert t.commits[..|t.commits| - 1] == s.commits;
  }

  lemma HistoryCommits(h: string -> string, s: System, e: Event, now: Time)
    requires Inv(s, now) && (e.Commit? || e.Resolve?)
    ensures HistoryFenced(Next(h, s, e, now))
  {
    var t := Next(h, s, e, now);
    if t != s {
      HistoryExtended(s, t, if e.Commit? then |e.decision.canonical| else |e.output|);
    }
  }

  lemma InvResolve(h: string -> string, s: System, lease: Lease, step: StepIdentity, output: string, now: Time)
    requires Inv(s, now) && ResolutionRefusal(s.run, s.auth, lease, step, output, now).None?
    ensures Inv(Next(h, s, Resolve(lease, step, output), now), now)
  {
    HistoryCommits(h, s, Resolve(lease, step, output), now);
  }

  /** The rest of the invariant, for a commit that keeps its attempt and for one that ends it. */
  lemma InvAdvanced(h: string -> string, s: System, t: System, req: CommitRequest, decision: CommitDecision, nextStepId: string, now: Time)
    requires Inv(s, now) && s.run.state.Running? && DecidableKind(decision.nextKind) && HistoryFenced(t)
    requires s.auth.nextStepKind != RESOLUTION_OPERATION && !decision.closeAttempt && t.approvals == s.approvals
    requires t.run == CommittedRun(s.run, decision, now) && t.auth == CommittedAuthority(h, s.run, s.auth, req, decision, nextStepId)
    ensures Inv(t, now)
  {
  }

  lemma InvEnded(h: string -> string, s: System, t: System, req: CommitRequest, decision: CommitDecision, nextStepId: string, now: Time)
    requires Inv(s, now) && s.run.state.Running? && s.run.cancelRequestedAt.None? && HistoryFenced(t)
    requires s.auth.nextStepKind != RESOLUTION_OPERATION && decision.closeAttempt && t.approvals == s.approvals
    requires t.run == Closed(CommittedRun(s.run, decision, now))
    requires t.auth == Relinquished(CommittedAuthority(h, s.run, s.auth, req, decision, nextStepId))
    ensures Inv(t, now)
  {
  }

  lemma CommitNeedsRunning(s: System, req: CommitRequest, decision: CommitDecision, nextStepId: string, now: Time)
    requires Inv(s, now) && CommitRefusal(s.run, s.auth, req, decision, nextStepId, now).None?
    ensures s.run.state.Running? && s.run.cancelRequestedAt.None? && req.step.kind == s.auth.nextStepKind
  {
  }

  lemma InvContinues(h: string -> string, s: System, req: CommitRequest, decision: CommitDecision, nextStepId: string, now: Time)
    requires Inv(s, now) && Taken(s, req, decision, nextStepId, now) && !decision.closeAttempt
    ensures Inv(Next(h, s, Commit(req, decision, nextStepId), now), now)
  {
    CommitNeedsRunning(s, req, decision, nextStepId, now);
    HistoryCommits(h, s, Commit(req, decision, nextStepId), now);
    InvAdvanced(h, s, Next(h, s, Commit(req, decision, nextStepId), now), req, decision, nextStepId, now);
  }

  lemma InvCloses(h: string -> string, s: System, req: CommitRequest, decision: CommitDecision, nextStepId: string, now: Time)
    requires Inv(s, now) && Taken(s, req, decision, nextStepId, now) && decision.closeAttempt
    ensures Inv(Next(h, s, Commit(req, decision, nextStepId), now), now)
  {
    CommitNeedsRunning(s, req, decision, nextStepId, now);
    HistoryCommits(h, s, Commit(req, decision, nextStepId), now);
    InvEnded(h, s, Next(h, s, Commit(req, decision, nextStepId), now), req, decision, nextStepId, now);
  }

  lemma InvCommit(h: string -> string, s: System, req: CommitRequest, decision: CommitDecision, nextStepId: string, now: Time)
    requires Inv(s, now) && Taken(s, req, decision, nextStepId, now)
    ensures Inv(Next(h, s, Commit(req, decision, nextStepId), now), now)
  {
    if decision.closeAttempt {
      InvCloses(h, s, req, decision, nextStepId, now);
    } else {
      InvContinues(h, s, req, decision, nextStepId, now);
    }
  }

  lemma InvLater(s: System, before: Time, now: Time)
    requires Inv(s, before) && before <= now
    ensures Inv(s, now)
  {
  }

  lemma InvSignal(h: string -> string, s: System, e: Event, now: Time)
    requires Inv(s, now) && (e.Cancel? || e.Stop? || e.Beat? || e.TrackCall?)
    ensures Inv(Next(h, s, e, now), now)
  {
  }

  lemma InvWaiting(h: string -> string, s: System, e: Event, now: Time)
    requires Inv(s, now) && (e.Expire? || e.Decide?)
    ensures Inv(Next(h, s, e, now), now)
  {
  }

  lemma InvNext(h: string -> string, s: System, e: Event, now: Time)
    requires Inv(s, now)
    ensures Inv(Next(h, s, e, now), now)
  {
    match e
    case Claim(w, session) => if ClaimRefusal(s.run, s.auth, w, session, now).None? { InvClaim(s, w, session, now); }
    case Close(reason) => if CloseRefusal(s.run, reason, now).None? { InvClose(s, reason, now); }
    case Commit(req, decision, next) => if Taken(s, req, decision, next, now) { InvCommit(h, s, req, decision, next, now); }
    case Resolve(lease, step, output) =>
      if ResolutionRefusal(s.run, s.auth, lease, step, output, now).None? { InvResolve(h, s, lease, step, output, now); }
    case Expire => InvWaiting(h, s, e, now);
    case Decide(_, _, _, _) => InvWaiting(h, s, e, now);
    case _ => InvSignal(h, s, e, now);
  }

  /** The invariant holds throughout every run. */
  lemma {:induction false} InvExecute(h: string -> string, s: System, trace: seq<Moment>, start: Time)
    requires Inv(s, start) && Timely(trace, start)
    ensures Inv(Execute(h, s, trace), EndTime(trace, start)) && start <= EndTime(trace, start)
    decreases |trace|
  {
    if trace != [] {
      InvLater(s, start, trace[0].now);
      InvNext(h, s, trace[0].event, trace[0].now);
      InvExecute(h, Next(h, s, trace[0].event, trace[0].now), trace[1..], trace[0].now);
    }
  }

  // ---------- attempts and termination ----------

  /** At most five claims and thirty-two commits, exactly accounted for, in every run of a submitted Run. */
  lemma AttemptAccounting(h: string -> string, identity: RunIdentity, stepId: string, inputHash: string, trace: seq<Moment>, start: Time)
    requires Timely(trace, start)
    ensures var s := Execute(h, Initial(identity, stepId, inputHash, start), trace);
            && AttemptsAccounted(s) && s.approvals <= 1
            && s.run.attemptNo <= MAX_RECOVERIES + 2 && |s.commits| == s.run.cursorVersion <= MAX_STEPS
  {
    InitialInv(identity, stepId, inputHash, start);
    InvExecute(h, Initial(identity, stepId, inputHash, start), trace, start);
  }

  function Rank(state: State): nat {
    match state
    case RetryWait => 4
    case Ready => 3
    case Running => 2
    case _ => 1
  }

  /** Recoveries and approvals left, then the phase, then steps left, then whether a cancel can still be recorded. */
  function Measure(s: System): int {
    if s.run.state.Terminal() then 0
    else
      1 + (if s.run.cancelRequestedAt.None? then 1 else 0)
      + 2 * (MAX_STEPS - s.run.cursorVersion)
      + 66 * Rank(s.run.state)
      + 330 * (MAX_RECOVERIES + 1 - s.run.recoveryCount - s.approvals)
  }

  predicate Progressing(e: Event) {
    !e.Beat? && !e.TrackCall?
  }

  lemma MeasureNonnegative(s: System, now: Time)
    requires Inv(s, now)
    ensures 0 <= Measure(s)
  {
  }

  lemma ProgressDecreases(h: string -> string, s: System, e: Event, now: Time)
    requires Inv(s, now) && Progressing(e) && Next(h, s, e, now) != s
    ensures Measure(Next(h, s, e, now)) < Measure(s)
  {
  }

  lemma RenewalKeepsMeasure(h: string -> string, s: System, e: Event, now: Time)
    requires !Progressing(e)
    ensures Measure(Next(h, s, e, now)) == Measure(s)
  {
  }

  function Changes(h: string -> string, s: System, trace: seq<Moment>): nat
    decreases |trace|
  {
    if trace == [] then 0
    else
      var t := Next(h, s, trace[0].event, trace[0].now);
      (if Progressing(trace[0].event) && t != s then 1 else 0) + Changes(h, t, trace[1..])
  }

  /** Termination: a Run never changes more often than its measure, heartbeats aside. */
  lemma {:induction false} ChangesBounded(h: string -> string, s: System, trace: seq<Moment>, start: Time)
    requires Inv(s, start) && Timely(trace, start)
    ensures Changes(h, s, trace) <= Measure(s)
    decreases |trace|
  {
    if trace == [] {
      MeasureNonnegative(s, start);
    } else {
      var e, now := trace[0].event, trace[0].now;
      InvLater(s, start, now);
      InvNext(h, s, e, now);
      ChangesBounded(h, Next(h, s, e, now), trace[1..], now);
      if !Progressing(e) {
        RenewalKeepsMeasure(h, s, e, now);
      } else if Next(h, s, e, now) != s {
        ProgressDecreases(h, s, e, now);
      }
    }
  }

  // ---------- terminal states and cancellation ----------

  lemma {:induction false} TerminalIsFinal(h: string -> string, s: System, trace: seq<Moment>)
    requires s.run.state.Terminal()
    ensures Execute(h, s, trace) == s
    decreases |trace|
  {
    if trace != [] {
      assert Next(h, s, trace[0].event, trace[0].now) == s;
      TerminalIsFinal(h, s, trace[1..]);
    }
  }

  predicate CancelKept(s: System, t: System) {
    && t.run.cancelRequestedAt == s.run.cancelRequestedAt
    && (t.run.state.Stopping? || t.run.state.Cancelled?)
    && t.commits == s.commits && t.run.attemptNo == s.run.attemptNo
  }

  lemma CancelKeptByStep(h: string -> string, s: System, e: Event, now: Time)
    requires Inv(s, now) && s.run.cancelRequestedAt.Some?
    ensures CancelKept(s, Next(h, s, e, now))
  {
  }

  /** Once a cancel is recorded it stays recorded, nothing more is claimed or committed, and the only terminal state left is Cancelled. */
  lemma {:induction false} CancelSticky(h: string -> string, s: System, trace: seq<Moment>, start: Time)
    requires Inv(s, start) && Timely(trace, start) && s.run.cancelRequestedAt.Some?
    ensures CancelKept(s, Execute(h, s, trace))
    decreases |trace|
  {
    if trace != [] {
      InvLater(s, start, trace[0].now);
      InvNext(h, s, trace[0].event, trace[0].now);
      CancelKeptByStep(h, s, trace[0].event, trace[0].now);
      CancelSticky(h, Next(h, s, trace[0].event, trace[0].now), trace[1..], trace[0].now);
    }
  }

  /** In every run a Run has an outcome exactly when it succeeded, and that outcome is the applied one exactly when it was approved. */
  lemma AppliedExactlyApproved(h: string -> string, identity: RunIdentity, stepId: string, inputHash: string, trace: seq<Moment>, start: Time)
    requires Timely(trace, start)
    ensures var s := Execute(h, Initial(identity, stepId, inputHash, start), trace);
            && (s.run.outcome.Some? <==> s.run.state.Succeeded?)
            && (s.run.state.Succeeded? ==> (s.run.outcome == Some("applied") <==> s.approvals == 1))
  {
    InitialInv(identity, stepId, inputHash, start);
    InvExecute(h, Initial(identity, stepId, inputHash, start), trace, start);
  }

  // ---------- deadlines and errors ----------

  lemma RenewalNeverShortens(s: System, lease: Lease, now: Time)
    requires Inv(s, now) && HeartbeatRenewed(s.run, s.auth, lease, now).Success?
    ensures var renewed := HeartbeatRenewed(s.run, s.auth, lease, now).value;
            && s.run.leaseUntil.value <= renewed.leaseUntil.value <= renewed.attemptDeadline.value <= s.run.identity.runDeadline
            && renewed.attemptDeadline == s.run.attemptDeadline && renewed.state == s.run.state
  {
  }

  /** When closing a reachable active attempt is refused, and that it is never an internal error. */
  lemma CloseAccepted(s: System, reason: Reason, now: Time)
    requires Inv(s, now) && s.run.state.Active() && reason.ValidClose()
    ensures CloseRefusal(s.run, reason, now) != Some(Internal)
    ensures CloseRefusal(s.run, reason, now).None? <==>
              || s.run.cancelRequestedAt.Some? || s.run.identity.runDeadline <= now
              || (&& (s.run.state.Running? ==> !reason.StopCancel? && !reason.StopRunDeadline?)
                  && (s.run.state.Running? && reason.StopAttemptTimeout? ==> s.run.attemptDeadline.value <= now)
                  && (reason.LeaseExpired? ==> s.run.leaseUntil.value <= now))
  {
  }

  lemma NoInternalErrors(s: System, w: string, session: string, now: Time)
    requires Inv(s, now)
    ensures ClaimRefusal(s.run, s.auth, w, session, now) != Some(Internal)
    ensures WaitingExpired(s.run, now) != Failure(Internal)
    ensures (ValidIdentifier(w) && ValidIdentifier(session) && s.run.state.Ready? && now < s.run.identity.runDeadline)
              ==> ClaimRefusal(s.run, s.auth, w, session, now).None?
  {
  }

  /** An expired lease can always be closed. */
  lemma ExpiredLeaseCloses(s: System, now: Time)
    requires Inv(s, now) && s.run.state.Active() && s.run.leaseUntil.value <= now
    ensures CloseRefusal(s.run, LeaseExpired, now).None?
  {
  }

  /** Past its deadline a Run is ended by one sweep: of its waiting state, or of its expired lease. */
  lemma PastDeadlineEnds(h: string -> string, s: System, now: Time)
    requires Inv(s, now) && s.run.identity.runDeadline <= now
    ensures s.run.state.Waiting() ==> Next(h, s, Expire, now).run.state.Failed?
    ensures s.run.state.Active() ==>
              Next(h, s, Close(LeaseExpired), now).run.state
              == if s.run.cancelRequestedAt.Some? then Cancelled else Failed
    ensures s.run.state.Waiting() || s.run.state.Active() || s.run.state.Terminal()
  {
  }

  // ---------- fenced history ----------

  lemma {:induction false} TokensAndHistoryGrow(h: string -> string, s: System, trace: seq<Moment>)
    ensures s.auth.fencingToken <= Execute(h, s, trace).auth.fencingToken
    ensures s.commits <= Execute(h, s, trace).commits
    decreases |trace|
  {
    if trace != [] {
      var t := Next(h, s, trace[0].event, trace[0].now);
      assert s.auth.fencingToken <= t.auth.fencingToken && s.commits <= t.commits;
      TokensAndHistoryGrow(h, t, trace[1..]);
    }
  }

  /** A lease older than the latest claim never again executes, renews, commits or resolves. */
  lemma StaleLeaseNeverAccepted(h: string -> string, s: System, trace: seq<Moment>, lease: Lease, now: Time)
    requires lease.fencingToken < s.auth.fencingToken
    ensures var t := Execute(h, s, trace);
            && CheckExecution(t.run, t.auth, lease, now) == Fail(StaleLease)
            && HeartbeatRenewed(t.run, t.auth, lease, now) == Failure(StaleLease)
            && (forall req: CommitRequest, decision, next :: req.lease == lease ==> Next(h, t, Commit(req, decision, next), now) == t)
            && (forall step, output :: Next(h, t, Resolve(lease, step, output), now) == t)
  {
    TokensAndHistoryGrow(h, s, trace);
  }

  /** Along every run the accepted commits are contiguous, their tokens never fall, and their bytes add up within the limit. */
  lemma FencedHistory(h: string -> string, identity: RunIdentity, stepId: string, inputHash: string, trace: seq<Moment>, start: Time)
    requires Timely(trace, start)
    ensures HistoryFenced(Execute(h, Initial(identity, stepId, inputHash, start), trace))
  {
    InitialInv(identity, stepId, inputHash, start);
    InvExecute(h, Initial(identity, stepId, inputHash, start), trace, start);
  }
}
