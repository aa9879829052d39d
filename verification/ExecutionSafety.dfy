/**
  One Run, its database facts, and every worker that ever claimed it, as a distributed
  protocol. Each claim has its own keeper, on a clock of unknown offset. Replies may be
  delayed, duplicated or lost: `net` only grows, and any message in it may arrive at any
  later instant. Assumed of the environment: the database clock never goes back and local
  clocks run at its rate; a worker stops executing before it reports a failure or submits
  its final step.
*/
module ExecutionSafety {
  import opened Wrappers
  import opened RunModel
  import Identity
  import RunPolicy
  import RunMachine
  import RunClock
  import LeaseKeeper

  /** A worker that holds a claim: its clock offset, its keeper, and whether it still has steps to execute. */
  datatype Worker = Worker(offset: int, keeper: LeaseKeeper.KeeperView, executing: bool)

  datatype Message =
    | ClaimReply(token: int, offset: int, start: int, grant: LeaseKeeper.Grant, sessionDeadline: int)
    | BeatReply(token: int, start: int, response: LeaseKeeper.Response)
    | FailureReport(lease: Lease, reason: Reason)
    | FinalSubmission(lease: Lease)

  /** `granted` remembers, for every token ever issued, the last lease the database gave it. */
  datatype World = World(now: Time, sys: RunMachine.System, workers: map<int, Worker>, net: set<Message>, granted: map<int, Time>)

  datatype Action =
    | Tick(elapsed: nat)
    | ServeClaim(workerId: string, sessionId: string, sentAt: Time, offset: int, sessionDeadline: int)
    | ServeBeat(lease: Lease, sentAt: Time, sessionExpiresAt: Time)
    | ServeReport(lease: Lease, reason: Reason)
    | Sweep(event: RunMachine.Event)
    | ReceiveClaim(message: Message, received: int)
    | ReceiveBeat(message: Message, received: int)
    | CheckKeeper(token: int)
    | RevokeKeeper(token: int)
    | FinishStep(token: int)
    | ReportFailure(lease: Lease, reason: Reason)
    | SubmitFinal(lease: Lease)

  function Reading(w: World, token: int): Option<int>
    requires token in w.workers
  {
    Some(RunClock.LocalMillis(w.now, w.workers[token].offset))
  }

  /** Events the server performs on its own, or on a request whose sender keeps executing. */
  predicate ServerEvent(w: World, e: RunMachine.Event) {
    match e
    case Cancel => true
    case Stop(_) => true
    case Expire => true
    case Decide(_, _, _, _) => true
    case Resolve(_, _, _) => true
    case TrackCall(_) => true
    case Close(reason) => reason.Stop() || reason.LeaseExpired?
    case Commit(req, decision, _) => decision.closeAttempt ==> FinalSubmission(req.lease) in w.net
    case _ => false
  }

  function Serve(h: string -> string, w: World, e: RunMachine.Event): World {
    w.(sys := RunMachine.Next(h, w.sys, e, w.now))
  }

  function Act(h: string -> string, w: World, a: Action): World {
    match a
    case Tick(elapsed) => w.(now := w.now + elapsed)
    case ServeClaim(workerId, sessionId, sentAt, offset, sessionDeadline) =>
      var served := Serve(h, w, RunMachine.Claim(workerId, sessionId));
      if w.now < sentAt || RunPolicy.ClaimRefusal(w.sys.run, w.sys.auth, workerId, sessionId, w.now).Some? then w
      else
        var r, token := served.sys.run, served.sys.auth.fencingToken;
        var grant := LeaseKeeper.Grant(Some(w.now), r.leaseUntil, r.attemptDeadline, Some(r.identity.runDeadline));
        var reply := ClaimReply(token, offset, RunClock.LocalMillis(sentAt, offset), grant, sessionDeadline);
        served.(net := w.net + {reply}, granted := w.granted[token := r.leaseUntil.value])
    case ServeBeat(lease, sentAt, sessionExpiresAt) =>
      var token := lease.fencingToken;
      if token !in w.workers || w.now < sentAt then w
      else
        var start := RunClock.LocalMillis(sentAt, w.workers[token].offset);
        var renewed := RunPolicy.HeartbeatRenewed(w.sys.run, w.sys.auth, lease, w.now);
        if renewed.Failure? then
          var stop := LeaseKeeper.Response(LeaseKeeper.StopNow, w.sys.run.stopReason, Some(w.now), w.sys.run.leaseUntil, Some(sessionExpiresAt));
          w.(net := w.net + {BeatReply(token, start, stop)})
        else
          var reply := LeaseKeeper.Response(LeaseKeeper.Continue, None, Some(w.now), renewed.value.leaseUntil, Some(sessionExpiresAt));
          Serve(h, w, RunMachine.Beat(lease)).(net := w.net + {BeatReply(token, start, reply)},
                                               granted := w.granted[token := renewed.value.leaseUntil.value])
    case ServeReport(lease, reason) =>
      if FailureReport(lease, reason) in w.net && RunPolicy.MatchesExecution(w.sys.run, w.sys.auth, lease)
      then Serve(h, w, RunMachine.Close(reason))
      else w
    case Sweep(e) => if ServerEvent(w, e) then Serve(h, w, e) else w
    case ReceiveClaim(m, received) =>
      if m !in w.net || !m.ClaimReply? || m.token in w.workers then w
      else
        var keeper := LeaseKeeper.Created(m.grant, m.sessionDeadline, m.start, received);
        if keeper.None? then w else w.(workers := w.workers[m.token := Worker(m.offset, keeper.value, true)])
    case ReceiveBeat(m, received) =>
      if m !in w.net || !m.BeatReply? || m.token !in w.workers then w
      else
        var worker := w.workers[m.token];
        var keeper := LeaseKeeper.HeartbeatHandled(worker.keeper, m.start, received, Some(m.response), Reading(w, m.token));
        w.(workers := w.workers[m.token := worker.(keeper := keeper)])
    case CheckKeeper(token) =>
      if token !in w.workers then w
      else
        var worker := w.workers[token];
        w.(workers := w.workers[token := worker.(keeper := LeaseKeeper.Checked(worker.keeper, Reading(w, token)))])
    case RevokeKeeper(token) =>
      if token !in w.workers then w
      else
        var worker := w.workers[token];
        w.(workers := w.workers[token := worker.(keeper := LeaseKeeper.Halted(worker.keeper, LeaseKeeper.StopRequested))])
    case FinishStep(token) =>
      if token in w.workers then w.(workers := w.workers[token := w.workers[token].(executing := false)]) else w
    case ReportFailure(lease, reason) =>
      if Quiesced(w, lease.fencingToken) then w.(net := w.net + {FailureReport(lease, reason)}) else w
    case SubmitFinal(lease) =>
      if Quiesced(w, lease.fencingToken) then w.(net := w.net + {FinalSubmission(lease)}) else w
  }

  predicate Quiesced(w: World, token: int) {
    token in w.workers && !w.workers[token].executing
  }

  function Play(h: string -> string, w: World, actions: seq<Action>): World
    decreases |actions|
  {
    if actions == [] then w else Play(h, Act(h, w, actions[0]), actions[1..])
  }

  /** A worker that is executing and whose keeper would pass a Check at this very instant. */
  predicate Holds(w: World, token: int) {
    token in w.workers && w.workers[token].executing && LeaseKeeper.Passes(w.workers[token].keeper, Reading(w, token))
  }

  // ---------- the inductive invariant ----------

  /** This token can no longer execute: its last lease is over, or its worker is stopped or idle. */
  predicate Harmless(w: World, token: int) {
    || (token in w.granted && w.granted[token] <= w.now)
    || (token in w.workers && (!w.workers[token].executing || w.workers[token].keeper.stopped))
  }

  ghost predicate TokensKnown(w: World) {
    && (forall t :: t in w.granted <==> 1 <= t <= w.sys.auth.fencingToken)
    && (forall t :: t in w.workers ==> t in w.granted)
    && (w.sys.run.state.Active() ==>
          w.sys.auth.fencingToken in w.granted && Some(w.granted[w.sys.auth.fencingToken]) == w.sys.run.leaseUntil)
  }

  /** A token whose attempt is over while the Run can still be claimed is harmless. */
  predicate PastHarmless(w: World) {
    forall t :: t in w.granted && (t < w.sys.auth.fencingToken || w.sys.run.state.Waiting()) ==> Harmless(w, t)
  }

  /** No keeper's deadline, read on its own clock, lies beyond the lease the database gave it. */
  predicate KeepersBounded(w: World) {
    forall t :: t in w.workers ==>
      t in w.granted && RunClock.Instant(w.workers[t].keeper.leaseDeadline, w.workers[t].offset) <= w.granted[t]
  }

  predicate MessageSound(w: World, m: Message) {
    match m
    case ClaimReply(token, offset, start, grant, _) =>
      && token in w.granted && grant.observed.Some? && grant.leaseUntil.Some?
      && RunClock.Instant(start, offset) <= grant.observed.value && grant.leaseUntil.value <= w.granted[token]
    case BeatReply(token, start, response) =>
      && token in w.workers && token in w.granted && response.observed.Some?
      && RunClock.Instant(start, w.workers[token].offset) <= response.observed.value
      && (response.signal.Continue? ==> response.leaseUntil.Some? && response.leaseUntil.value <= w.granted[token])
    case FailureReport(lease, _) => Quiesced(w, lease.fencingToken)
    case FinalSubmission(lease) => Quiesced(w, lease.fencingToken)
  }

  ghost predicate MessagesSound(w: World) {
    forall m :: m in w.net ==> MessageSound(w, m)
  }

  ghost predicate Inv(w: World) {
    RunMachine.Inv(w.sys, w.now) && TokensKnown(w) && PastHarmless(w) && KeepersBounded(w) && MessagesSound(w)
  }

  function Initial(identity: RunIdentity, stepId: string, inputHash: string, now: Time): World {
    World(now, RunMachine.Initial(identity, stepId, inputHash, now), map[], {}, map[])
  }

  // ---------- preservation ----------

  /** A mapped lease deadline never reaches past the database lease it came from. */
  lemma MappedWithinLease(start: int, received: int, offset: int, observed: Time, leaseUntil: Time)
    requires RunClock.FromAuthority(start, received, Some(observed), Some(leaseUntil), LeaseKeeper.LEASE_LIMIT).Success?
    requires RunClock.Instant(start, offset) <= observed
    ensures RunClock.Instant(RunClock.FromAuthority(start, received, Some(observed), Some(leaseUntil), LeaseKeeper.LEASE_LIMIT).value, offset)
            <= leaseUntil
  {
  }

  lemma SampledBefore(sentAt: Time, offset: int, now: Time)
    requires sentAt <= now
    ensures RunClock.Instant(RunClock.LocalMillis(sentAt, offset), offset) <= now
  {
  }

  lemma InvTick(h: string -> string, w: World, a: Action)
    requires Inv(w) && a.Tick?
    ensures Inv(Act(h, w, a))
  {
    RunMachine.InvLater(w.sys, w.now, w.now + a.elapsed);
  }

  lemma InvServeClaim(h: string -> string, w: World, a: Action)
    requires Inv(w) && a.ServeClaim?
    ensures Inv(Act(h, w, a))
  {
    var v := Act(h, w, a);
    if v != w {
      RunMachine.InvNext(h, w.sys, RunMachine.Claim(a.workerId, a.sessionId), w.now);
      SampledBefore(a.sentAt, a.offset, w.now);
      assert w.sys.run.state.Waiting();
      forall m | m in v.net ensures MessageSound(v, m) {
        if m in w.net { assert MessageSound(w, m); }
      }
    }
  }

  lemma InvServeBeat(h: string -> string, w: World, a: Action)
    requires Inv(w) && a.ServeBeat?
    ensures Inv(Act(h, w, a))
  {
    var v, token := Act(h, w, a), a.lease.fencingToken;
    if token in w.workers && a.sentAt <= w.now {
      RunMachine.InvNext(h, w.sys, RunMachine.Beat(a.lease), w.now);
      SampledBefore(a.sentAt, w.workers[token].offset, w.now);
      if RunPolicy.HeartbeatRenewed(w.sys.run, w.sys.auth, a.lease, w.now).Success? {
        RunMachine.RenewalNeverShortens(w.sys, a.lease, w.now);
        assert w.granted[token] <= v.granted[token];
      }
      forall m | m in v.net ensures MessageSound(v, m) {
        if m in w.net { assert MessageSound(w, m); }
      }
    }
  }

  /** A change of the database facts that issues no token and grants no lease. */
  lemma InvServed(w: World, v: World)
    requires Inv(w) && v == w.(sys := v.sys) && RunMachine.Inv(v.sys, w.now)
    requires v.sys.auth.fencingToken == w.sys.auth.fencingToken
    requires v.sys.run.state.Active() ==> w.sys.run.state.Active() && v.sys.run.leaseUntil == w.sys.run.leaseUntil
    requires v.sys.run.state.Waiting() ==> w.sys.run.state.Waiting() || Harmless(w, w.sys.auth.fencingToken)
    ensures Inv(v)
  {
    forall t | t in v.granted && (t < v.sys.auth.fencingToken || v.sys.run.state.Waiting()) ensures Harmless(v, t) {
      assert Harmless(w, t);
    }
    forall m | m in v.net ensures MessageSound(v, m) {
      assert MessageSound(w, m);
    }
  }

  lemma InvServeReport(h: string -> string, w: World, a: Action)
    requires Inv(w) && a.ServeReport?
    ensures Inv(Act(h, w, a))
  {
    var v := Act(h, w, a);
    if v != w {
      RunMachine.InvNext(h, w.sys, RunMachine.Close(a.reason), w.now);
      assert MessageSound(w, FailureReport(a.lease, a.reason));
      InvServed(w, v);
    }
  }

  /** A Run becomes claimable again only once its lease is over, or by a final commit under the current token. */
  lemma ReleaseJustified(h: string -> string, s: RunMachine.System, e: RunMachine.Event, now: Time)
    requires RunMachine.Inv(s, now) && !e.Claim? && !e.Beat?
    requires e.Close? ==> e.reason.Stop() || e.reason.LeaseExpired?
    ensures var t := RunMachine.Next(h, s, e, now);
            && t.auth.fencingToken == s.auth.fencingToken
            && (t.run.state.Active() ==> s.run.state.Active() && t.run.leaseUntil == s.run.leaseUntil)
            && (t.run.state.Waiting() ==>
                  || s.run.state.Waiting()
                  || (s.run.state.Active() && s.run.leaseUntil.value <= now)
                  || (e.Commit? && e.decision.closeAttempt && e.req.lease.fencingToken == s.auth.fencingToken))
  {
  }

  lemma InvSweep(h: string -> string, w: World, a: Action)
    requires Inv(w) && a.Sweep?
    ensures Inv(Act(h, w, a))
  {
    if ServerEvent(w, a.event) {
      RunMachine.InvNext(h, w.sys, a.event, w.now);
      ReleaseJustified(h, w.sys, a.event, w.now);
      if a.event.Commit? && a.event.decision.closeAttempt {
        assert MessageSound(w, FinalSubmission(a.event.req.lease));
      }
      InvServed(w, Act(h, w, a));
    }
  }

  /** A worker's keeper may only be revoked, or renewed within its granted lease; it never resumes executing. */
  lemma InvWorker(w: World, token: int, worker: Worker)
    requires Inv(w) && token in w.workers
    requires worker.offset == w.workers[token].offset
    requires worker.executing ==> w.workers[token].executing
    requires w.workers[token].keeper.stopped ==> worker.keeper.stopped
    requires RunClock.Instant(worker.keeper.leaseDeadline, worker.offset) <= w.granted[token]
    ensures Inv(w.(workers := w.workers[token := worker]))
  {
    var v := w.(workers := w.workers[token := worker]);
    forall t | t in v.granted && (t < v.sys.auth.fencingToken || v.sys.run.state.Waiting()) ensures Harmless(v, t) {
      assert Harmless(w, t);
    }
    forall m | m in v.net ensures MessageSound(v, m) {
      assert MessageSound(w, m);
    }
  }

  lemma InvReceiveClaim(h: string -> string, w: World, a: Action)
    requires Inv(w) && a.ReceiveClaim?
    ensures Inv(Act(h, w, a))
  {
    var v, m := Act(h, w, a), a.message;
    if v != w {
      assert MessageSound(w, m);
      MappedWithinLease(m.start, a.received, m.offset, m.grant.observed.value, m.grant.leaseUntil.value);
      forall t | t in v.granted && (t < v.sys.auth.fencingToken || v.sys.run.state.Waiting()) ensures Harmless(v, t) {
        assert Harmless(w, t);
      }
      forall n | n in v.net ensures MessageSound(v, n) {
        assert MessageSound(w, n);
      }
    }
  }

  lemma InvReceiveBeat(h: string -> string, w: World, a: Action)
    requires Inv(w) && a.ReceiveBeat?
    ensures Inv(Act(h, w, a))
  {
    var m := a.message;
    if m in w.net && m.BeatReply? && m.token in w.workers {
      assert MessageSound(w, m);
      var worker := w.workers[m.token];
      var sample := Reading(w, m.token);
      if LeaseKeeper.Renewed(worker.keeper, m.start, a.received, Some(m.response), sample) {
        MappedWithinLease(m.start, a.received, worker.offset, m.response.observed.value, m.response.leaseUntil.value);
      }
      var keeper := LeaseKeeper.HeartbeatHandled(worker.keeper, m.start, a.received, Some(m.response), sample);
      InvWorker(w, m.token, worker.(keeper := keeper));
    }
  }

  lemma InvLocal(h: string -> string, w: World, a: Action)
    requires Inv(w) && (a.CheckKeeper? || a.RevokeKeeper? || a.FinishStep?)
    ensures Inv(Act(h, w, a))
  {
    if a.token in w.workers {
      InvWorker(w, a.token, Act(h, w, a).workers[a.token]);
    }
  }

  lemma InvSend(h: string -> string, w: World, a: Action)
    requires Inv(w) && (a.ReportFailure? || a.SubmitFinal?)
    ensures Inv(Act(h, w, a))
  {
    var v := Act(h, w, a);
    forall m | m in v.net ensures MessageSound(v, m) {
      if m in w.net { assert MessageSound(w, m); }
    }
    forall t | t in v.granted && (t < v.sys.auth.fencingToken || v.sys.run.state.Waiting()) ensures Harmless(v, t) {
      assert Harmless(w, t);
    }
  }

  lemma InvAct(h: string -> string, w: World, a: Action)
    requires Inv(w)
    ensures Inv(Act(h, w, a))
  {
    match a
    case Tick(_) => InvTick(h, w, a);
    case ServeClaim(_, _, _, _, _) => InvServeClaim(h, w, a);
    case ServeBeat(_, _, _) => InvServeBeat(h, w, a);
    case ServeReport(_, _) => InvServeReport(h, w, a);
    case Sweep(_) => InvSweep(h, w, a);
    case ReceiveClaim(_, _) => InvReceiveClaim(h, w, a);
    case ReceiveBeat(_, _) => InvReceiveBeat(h, w, a);
    case CheckKeeper(_) => InvLocal(h, w, a);
    case RevokeKeeper(_) => InvLocal(h, w, a);
    case FinishStep(_) => InvLocal(h, w, a);
    case ReportFailure(_, _) => InvSend(h, w, a);
    case SubmitFinal(_) => InvSend(h, w, a);
  }

  lemma {:induction false} InvPlay(h: string -> string, w: World, actions: seq<Action>)
    requires Inv(w)
    ensures Inv(Play(h, w, actions))
    decreases |actions|
  {
    if actions != [] {
      InvAct(h, w, actions[0]);
      InvPlay(h, Act(h, w, actions[0]), actions[1..]);
    }
  }

  lemma InitialInv(identity: RunIdentity, stepId: string, inputHash: string, now: Time)
    ensures Inv(Initial(identity, stepId, inputHash, now))
  {
    RunMachine.InitialInv(identity, stepId, inputHash, now);
  }

  // ---------- safety ----------

  /** A harmless token does not hold. */
  lemma HarmlessNeverHolds(w: World, token: int)
    requires Inv(w) && Harmless(w, token)
    ensures !Holds(w, token)
  {
    if Holds(w, token) {
      var worker := w.workers[token];
      RunClock.ReadingBelow(w.now, worker.offset, worker.keeper.leaseDeadline);
    }
  }

  /** Whoever holds is the latest claimant, and while the attempt is active its database lease has not expired. */
  lemma HolderIsLatest(w: World, token: int)
    requires Inv(w) && Holds(w, token)
    ensures token == w.sys.auth.fencingToken && !w.sys.run.state.Waiting()
    ensures w.sys.run.state.Active() ==> w.now < w.sys.run.leaseUntil.value
  {
    if token < w.sys.auth.fencingToken || w.sys.run.state.Waiting() {
      HarmlessNeverHolds(w, token);
    } else {
      var worker := w.workers[token];
      RunClock.ReadingBelow(w.now, worker.offset, worker.keeper.leaseDeadline);
    }
  }

  /**
    Mutual exclusion: in no reachable world do two workers executing under different attempts
    of one Run both pass their local check at the same instant.
  */
  lemma MutualExclusion(h: string -> string, identity: RunIdentity, stepId: string, inputHash: string, start: Time,
                        actions: seq<Action>, first: int, second: int)
    requires var w := Play(h, Initial(identity, stepId, inputHash, start), actions); Holds(w, first) && Holds(w, second)
    ensures first == second
  {
    var w := Play(h, Initial(identity, stepId, inputHash, start), actions);
    InitialInv(identity, stepId, inputHash, start);
    InvPlay(h, Initial(identity, stepId, inputHash, start), actions);
    HolderIsLatest(w, first);
    HolderIsLatest(w, second);
  }

  // ---------- and somebody does hold ----------

  /** The reply to a claim served in this world. */
  function ReplyTo(w: World, sentAt: Time, offset: int, sessionDeadline: int): Message {
    var r := RunPolicy.ClaimedRun(w.sys.run, w.now);
    ClaimReply(w.sys.auth.fencingToken + 1, offset, RunClock.LocalMillis(sentAt, offset),
               LeaseKeeper.Grant(Some(w.now), r.leaseUntil, r.attemptDeadline, Some(r.identity.runDeadline)), sessionDeadline)
  }

  lemma {:induction false} PlayKeepsMessages(h: string -> string, w: World, actions: seq<Action>)
    ensures w.net <= Play(h, w, actions).net && w.now <= Play(h, w, actions).now
    decreases |actions|
  {
    if actions != [] {
      PlayKeepsMessages(h, Act(h, w, actions[0]), actions[1..]);
    }
  }

  lemma ServedReply(h: string -> string, w: World, workerId: string, sessionId: string, sentAt: Time, offset: int, sessionDeadline: int)
    requires sentAt <= w.now && RunPolicy.ClaimRefusal(w.sys.run, w.sys.auth, workerId, sessionId, w.now).None?
    ensures ReplyTo(w, sentAt, offset, sessionDeadline) in Act(h, w, ServeClaim(workerId, sessionId, sentAt, offset, sessionDeadline)).net
  {
  }

  /** The action leaves this worker alone. */
  predicate Spares(a: Action, token: int) {
    match a
    case ReceiveBeat(m, _) => m.BeatReply? && m.token != token
    case CheckKeeper(t) => t != token
    case RevokeKeeper(t) => t != token
    case FinishStep(t) => t != token
    case _ => true
  }

  predicate AllSpare(actions: seq<Action>, token: int) {
    forall i :: 0 <= i < |actions| ==> Spares(actions[i], token)
  }

  lemma {:induction false} SparedUnchanged(h: string -> string, w: World, actions: seq<Action>, token: int)
    requires token in w.workers && AllSpare(actions, token)
    ensures token in Play(h, w, actions).workers && Play(h, w, actions).workers[token] == w.workers[token]
    decreases |actions|
  {
    if actions != [] {
      assert Spares(actions[0], token);
      SparedUnchanged(h, Act(h, w, actions[0]), actions[1..], token);
    }
  }

  /** What the database grants to a claim now: thirty seconds, unless the Run ends before. */
  function ClaimedUntil(r: RunView, now: Time): Time {
    MinTime(now + 30 * SECOND, r.identity.runDeadline)
  }

  /** The keeper that a prompt reply creates passes every check up to the end of its lease and session. */
  lemma PromptKeeperPasses(w: World, sentAt: Time, offset: int, sessionDeadline: int, received: Time, t: Time)
    requires sentAt <= w.now && sentAt <= received <= t && 0 < w.sys.run.identity.runDeadline - w.now <= RunClock.DAY
    requires LeaseKeeper.Representable(sentAt, offset, w.now)
    requires RunClock.LocalMillis(t, offset) < sessionDeadline && LeaseKeeper.Ample(t, ClaimedUntil(w.sys.run, w.now), w.now - sentAt)
    ensures var m := ReplyTo(w, sentAt, offset, sessionDeadline);
            var keeper := LeaseKeeper.Created(m.grant, m.sessionDeadline, m.start, RunClock.LocalMillis(received, offset));
            keeper.Some? && LeaseKeeper.Passes(keeper.value, LeaseKeeper.Sampled(t, offset))
  {
    var r, got := RunPolicy.ClaimedRun(w.sys.run, w.now), RunClock.LocalMillis(received, offset);
    RunClock.PromptReplyMapped(sentAt, w.now, r.leaseUntil.value, LeaseKeeper.LEASE_LIMIT, offset, received);
    RunClock.PromptReplyMapped(sentAt, w.now, r.attemptDeadline.value, LeaseKeeper.ATTEMPT_LIMIT, offset, received);
    RunClock.PromptReplyMapped(sentAt, w.now, r.identity.runDeadline, RunClock.DAY, offset, received);
    RunClock.NearlyTight(sentAt, w.now, r.leaseUntil.value, LeaseKeeper.LEASE_LIMIT, offset, got, t);
    RunClock.NearlyTight(sentAt, w.now, r.attemptDeadline.value, LeaseKeeper.ATTEMPT_LIMIT, offset, got, t);
    RunClock.NearlyTight(sentAt, w.now, r.identity.runDeadline, RunClock.DAY, offset, got, t);
  }

  /**
    Exclusion is not bought by nobody ever executing. Whatever happened before a claim is accepted and
    between its acceptance and the arrival of its first reply, the claimant holds, whatever others do, up to
    two milliseconds plus the request's outbound delay before thirty seconds, or the Run, or its session end.
  */
  lemma ClaimantHolds(h: string -> string, w: World, workerId: string, sessionId: string, sentAt: Time, offset: int, sessionDeadline: int,
                      between: seq<Action>, after: seq<Action>)
    requires Inv(w) && sentAt <= w.now && RunPolicy.ClaimRefusal(w.sys.run, w.sys.auth, workerId, sessionId, w.now).None?
    requires w.sys.run.identity.runDeadline - w.now <= RunClock.DAY && LeaseKeeper.Representable(sentAt, offset, w.now)
    requires AllSpare(after, w.sys.auth.fencingToken + 1)
    requires w.sys.auth.fencingToken + 1
             !in Play(h, Act(h, w, ServeClaim(workerId, sessionId, sentAt, offset, sessionDeadline)), between).workers
    ensures var token := w.sys.auth.fencingToken + 1;
            var v := Play(h, Act(h, w, ServeClaim(workerId, sessionId, sentAt, offset, sessionDeadline)), between);
            var reply := ReceiveClaim(ReplyTo(w, sentAt, offset, sessionDeadline), RunClock.LocalMillis(v.now, offset));
            var u := Play(h, Act(h, v, reply), after);
            (&& LeaseKeeper.Ample(u.now, ClaimedUntil(w.sys.run, w.now), w.now - sentAt)
             && RunClock.LocalMillis(u.now, offset) < sessionDeadline) ==> Holds(u, token)
  {
    var token, served := w.sys.auth.fencingToken + 1, Act(h, w, ServeClaim(workerId, sessionId, sentAt, offset, sessionDeadline));
    var v := Play(h, served, between);
    var x := Act(h, v, ReceiveClaim(ReplyTo(w, sentAt, offset, sessionDeadline), RunClock.LocalMillis(v.now, offset)));
    var u := Play(h, x, after);
    ServedReply(h, w, workerId, sessionId, sentAt, offset, sessionDeadline);
    PlayKeepsMessages(h, served, between);
    PlayKeepsMessages(h, x, after);
    if LeaseKeeper.Ample(u.now, ClaimedUntil(w.sys.run, w.now), w.now - sentAt) && RunClock.LocalMillis(u.now, offset) < sessionDeadline {
      PromptKeeperPasses(w, sentAt, offset, sessionDeadline, v.now, u.now);
      SparedUnchanged(h, x, after, token);
    }
  }

  // ---------- and a renewed lease is held for longer ----------

  lemma {:induction false} WorkersStay(h: string -> string, w: World, actions: seq<Action>, token: int)
    requires token in w.workers
    ensures token in Play(h, w, actions).workers && Play(h, w, actions).workers[token].offset == w.workers[token].offset
    ensures Play(h, w, actions).workers[token].keeper.stepDeadline == w.workers[token].keeper.stepDeadline
    decreases |actions|
  {
    if actions != [] {
      var v := Act(h, w, actions[0]);
      assert token in v.workers && v.workers[token].offset == w.workers[token].offset;
      assert v.workers[token].keeper.stepDeadline == w.workers[token].keeper.stepDeadline;
      WorkersStay(h, v, actions[1..], token);
    }
  }

  /** What the database grants to a heartbeat now: thirty seconds, unless the attempt or the Run ends before. */
  function RenewedUntil(r: RunView, now: Time): Time
    requires r.attemptDeadline.Some?
  {
    MinTime(now + 30 * SECOND, MinTime(r.attemptDeadline.value, r.identity.runDeadline))
  }

  function RenewalReply(w: World, token: int, sentAt: Time, sessionExpiresAt: Time): Message
    requires token in w.workers && w.sys.run.attemptDeadline.Some?
  {
    BeatReply(token, RunClock.LocalMillis(sentAt, w.workers[token].offset),
              LeaseKeeper.Renewal(w.now, RenewedUntil(w.sys.run, w.now), sessionExpiresAt))
  }

  lemma ServedRenewal(h: string -> string, w: World, lease: Lease, sentAt: Time, sessionExpiresAt: Time)
    requires Inv(w) && lease.fencingToken in w.workers && sentAt <= w.now
    requires RunPolicy.CheckExecution(w.sys.run, w.sys.auth, lease, w.now).Pass?
    ensures w.now < RenewedUntil(w.sys.run, w.now)
    ensures var v := Act(h, w, ServeBeat(lease, sentAt, sessionExpiresAt));
            && RenewalReply(w, lease.fencingToken, sentAt, sessionExpiresAt) in v.net && v.now == w.now && v.workers == w.workers
            && v.sys.run.leaseUntil == Some(RenewedUntil(w.sys.run, w.now))
  {
  }

  /**
    A heartbeat is worth its thirty seconds. Whatever happened before the database served it and until
    its reply arrived, a worker that still holds then goes on holding, whatever others do, up to two
    milliseconds plus the outbound delay before the renewed lease and the session end and its step does.
    Its old lease has no say in it.
  */
  lemma HolderOutlivesLease(h: string -> string, w: World, lease: Lease, sentAt: Time, sessionExpiresAt: Time,
                            between: seq<Action>, after: seq<Action>)
    requires Inv(w) && lease.fencingToken in w.workers && sentAt <= w.now
    requires RunPolicy.CheckExecution(w.sys.run, w.sys.auth, lease, w.now).Pass?
    requires 0 < sessionExpiresAt - w.now <= LeaseKeeper.SESSION_LIMIT
    requires LeaseKeeper.Representable(sentAt, w.workers[lease.fencingToken].offset, w.now)
    requires AllSpare(after, lease.fencingToken)
    requires var v := Play(h, Act(h, w, ServeBeat(lease, sentAt, sessionExpiresAt)), between);
             Holds(v, lease.fencingToken)
    ensures var token, offset := lease.fencingToken, w.workers[lease.fencingToken].offset;
            var v := Play(h, Act(h, w, ServeBeat(lease, sentAt, sessionExpiresAt)), between);
            var reply := ReceiveBeat(RenewalReply(w, token, sentAt, sessionExpiresAt), RunClock.LocalMillis(v.now, offset));
            var u := Play(h, Act(h, v, reply), after);
            (&& LeaseKeeper.Ample(u.now, RenewedUntil(w.sys.run, w.now), w.now - sentAt)
             && LeaseKeeper.Ample(u.now, sessionExpiresAt, w.now - sentAt)
             && RunClock.LocalMillis(u.now, offset) < w.workers[token].keeper.stepDeadline) ==> Holds(u, token)
  {
    var token, offset := lease.fencingToken, w.workers[lease.fencingToken].offset;
    var served := Act(h, w, ServeBeat(lease, sentAt, sessionExpiresAt));
    var v := Play(h, served, between);
    var m := RenewalReply(w, token, sentAt, sessionExpiresAt);
    var x := Act(h, v, ReceiveBeat(m, RunClock.LocalMillis(v.now, offset)));
    var u := Play(h, x, after);
    ServedRenewal(h, w, lease, sentAt, sessionExpiresAt);
    PlayKeepsMessages(h, served, between);
    PlayKeepsMessages(h, x, after);
    WorkersStay(h, served, between, token);
    SparedUnchanged(h, x, after, token);
    if LeaseKeeper.Ample(u.now, RenewedUntil(w.sys.run, w.now), w.now - sentAt)
       && LeaseKeeper.Ample(u.now, sessionExpiresAt, w.now - sentAt)
    {
      LeaseKeeper.RenewalExtends(v.workers[token].keeper, offset, sentAt, w.now, v.now, v.now, u.now,
                                 RenewedUntil(w.sys.run, w.now), sessionExpiresAt);
    }
  }

  // A new Run, claimed at once, beaten at ten seconds.

  function FirstClaim(identity: RunIdentity, stepId: string, inputHash: string, workerId: string, sessionId: string): seq<Action> {
    [ServeClaim(workerId, sessionId, 0, 0, 60_000), ReceiveClaim(ReplyTo(Initial(identity, stepId, inputHash, 0), 0, 0, 60_000), 0)]
  }

  /** Ten seconds after its claim. */
  function FirstHeld(h: string -> string, identity: RunIdentity, stepId: string, inputHash: string, workerId: string, sessionId: string): World {
    Play(h, Initial(identity, stepId, inputHash, 0), FirstClaim(identity, stepId, inputHash, workerId, sessionId) + [Tick(10 * SECOND)])
  }

  function FirstBeat(w: World, lease: Lease): seq<Action>
    requires 1 in w.workers && w.sys.run.attemptDeadline.Some?
  {
    [ServeBeat(lease, w.now, w.now + 60 * SECOND), ReceiveBeat(RenewalReply(w, 1, w.now, w.now + 60 * SECOND), RunClock.LocalMillis(w.now, 0))]
  }

  lemma TwoPlayed(h: string -> string, w: World, first: Action, second: Action, rest: seq<Action>)
    ensures Play(h, w, [first, second] + rest) == Play(h, Act(h, Act(h, w, first), second), rest)
  {
    var all := [first, second] + rest;
    assert all[1..] == [second] + rest && ([second] + rest)[1..] == rest;
  }

  lemma FirstClaimed(h: string -> string, identity: RunIdentity, stepId: string, inputHash: string, workerId: string, sessionId: string)
    requires Identity.ValidIdentifier(workerId) && Identity.ValidIdentifier(sessionId)
    requires ATTEMPT_TTL <= identity.runDeadline <= RunClock.DAY
    ensures var w := FirstHeld(h, identity, stepId, inputHash, workerId, sessionId);
            && Inv(w) && w.now == 10 * SECOND && Holds(w, 1) && w.workers[1].offset == 0 && w.workers[1].keeper.stepDeadline == 180_000
            && w.sys.run.attemptDeadline == Some(180 * SECOND) && w.sys.run.identity == identity
            && RunPolicy.CheckExecution(w.sys.run, w.sys.auth, Lease(identity.tenantId, identity.id, workerId, sessionId, 1, 1), w.now).Pass?
  {
    var w := Initial(identity, stepId, inputHash, 0);
    var claim, tick := FirstClaim(identity, stepId, inputHash, workerId, sessionId), [Tick(10 * SECOND)];
    InitialInv(identity, stepId, inputHash, 0);
    InvPlay(h, w, claim + tick);
    TwoPlayed(h, w, claim[0], claim[1], tick);
    ClaimantHolds(h, w, workerId, sessionId, 0, 0, 60_000, [], tick);
  }

  /** The claim of a new Run is held, and after one heartbeat still held nine seconds past the thirty the claim had. */
  lemma FirstClaimantHolds(h: string -> string, identity: RunIdentity, stepId: string, inputHash: string, workerId: string,
                           sessionId: string)
    requires Identity.ValidIdentifier(workerId) && Identity.ValidIdentifier(sessionId)
    requires ATTEMPT_TTL <= identity.runDeadline <= RunClock.DAY
    ensures var w := FirstHeld(h, identity, stepId, inputHash, workerId, sessionId);
            var lease := Lease(identity.tenantId, identity.id, workerId, sessionId, 1, 1);
            && w.now == 10 * SECOND && Holds(w, 1) && w.sys.run.attemptDeadline.Some?
            && (var u := Play(h, w, FirstBeat(w, lease) + [Tick(29 * SECOND)]); u.now == 39 * SECOND && Holds(u, 1))
  {
    var w := FirstHeld(h, identity, stepId, inputHash, workerId, sessionId);
    var lease, tick := Lease(identity.tenantId, identity.id, workerId, sessionId, 1, 1), [Tick(29 * SECOND)];
    FirstClaimed(h, identity, stepId, inputHash, workerId, sessionId);
    var beat := FirstBeat(w, lease);
    TwoPlayed(h, w, beat[0], beat[1], tick);
    ServedRenewal(h, w, lease, w.now, w.now + 60 * SECOND);
    HolderOutlivesLease(h, w, lease, w.now, w.now + 60 * SECOND, [], tick);
  }
}
