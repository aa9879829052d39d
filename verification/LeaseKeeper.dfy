/**
  A worker's revocable local authority (internal/runworker/authority.go). Clock samples
  are arguments; None is a failed sample. The mutex makes each method one atomic step.
*/
module LeaseKeeper {
  import opened Wrappers
  import opened RunClock
  import RunModel

  const LEASE_LIMIT: Time := 30 * 1_000_000_000
  const SESSION_LIMIT: Time := 60 * 1_000_000_000
  const ATTEMPT_LIMIT: Time := 180 * 1_000_000_000

  datatype Signal = Continue | StopNow | OtherSignal

  datatype Response = Response(signal: Signal, stopReason: Option<RunModel.Reason>, observed: Option<Time>,
                               leaseUntil: Option<Time>, sessionExpiresAt: Option<Time>)

  /** The stamps of a claim: when they were observed, and the three expiries. */
  datatype Grant = Grant(observed: Option<Time>, leaseUntil: Option<Time>, attemptDeadline: Option<Time>, runDeadline: Option<Time>)

  datatype Cause = StaleLease | StopRequested | ServerStop(reason: RunModel.Reason)

  datatype KeeperView = KeeperView(leaseDeadline: int, sessionDeadline: int, stepDeadline: int,
                                   stopped: bool, stopReason: Option<Cause>, serverStop: bool)

  // ---------- specifications ----------

  function Least(a: int, b: int): int {
    if a < b then a else b
  }

  function Limit(k: KeeperView): int {
    Least(Least(k.leaseDeadline, k.sessionDeadline), k.stepDeadline)
  }

  /** Whether Check would succeed now. */
  predicate Passes(k: KeeperView, sample: Option<int>) {
    !k.stopped && sample.Some? && 0 <= sample.value < Limit(k)
  }

  function Halted(k: KeeperView, cause: Cause): KeeperView {
    if k.stopped then k else k.(stopped := true, stopReason := Some(cause))
  }

  function Checked(k: KeeperView, sample: Option<int>): KeeperView {
    if Passes(k, sample) then k else Halted(k, StaleLease)
  }

  function Created(grant: Grant, sessionDeadline: int, start: int, received: int): Option<KeeperView> {
    var lease := FromAuthority(start, received, grant.observed, grant.leaseUntil, LEASE_LIMIT);
    var attempt := FromAuthority(start, received, grant.observed, grant.attemptDeadline, ATTEMPT_LIMIT);
    var run := FromAuthority(start, received, grant.observed, grant.runDeadline, DAY);
    if sessionDeadline <= received || lease.Failure? || attempt.Failure? || run.Failure? then None
    else Some(KeeperView(lease.value, sessionDeadline, Least(attempt.value, run.value), false, None, false))
  }

  predicate Renewing(start: int, received: int, response: Response) {
    && response.signal.Continue? && response.stopReason.None?
    && FromAuthority(start, received, response.observed, response.leaseUntil, LEASE_LIMIT).Success?
    && FromAuthority(start, received, response.observed, response.sessionExpiresAt, SESSION_LIMIT).Success?
  }

  predicate StopOrder(response: Response) {
    response.signal.StopNow? && response.stopReason.Some? && response.stopReason.value.Stop()
  }

  predicate Renewed(k: KeeperView, start: int, received: int, response: Option<Response>, sample: Option<int>) {
    response.Some? && Renewing(start, received, response.value) && Passes(k, sample) && received < Limit(k)
  }

  function HeartbeatHandled(k: KeeperView, start: int, received: int, response: Option<Response>, sample: Option<int>): KeeperView {
    if response.Some? && StopOrder(response.value) then
      Halted(k.(serverStop := true), ServerStop(response.value.stopReason.value))
    else if Renewed(k, start, received, response, sample) then
      k.(leaseDeadline := FromAuthority(start, received, response.value.observed, response.value.leaseUntil, LEASE_LIMIT).value,
         sessionDeadline := FromAuthority(start, received, response.value.observed, response.value.sessionExpiresAt, SESSION_LIMIT).value)
    else Halted(k, StaleLease)
  }

  // ---------- the keeper ----------

  class Keeper {
    var leaseDeadline: int
    var sessionDeadline: int
    const stepDeadline: int
    var stopped: bool
    var stopReason: Option<Cause>
    var serverStop: bool

    function View(): KeeperView
      reads this
    {
      KeeperView(leaseDeadline, sessionDeadline, stepDeadline, stopped, stopReason, serverStop)
    }

    constructor (leaseDeadline: int, sessionDeadline: int, stepDeadline: int)
      ensures View() == KeeperView(leaseDeadline, sessionDeadline, stepDeadline, false, None, false)
    {
      this.leaseDeadline, this.sessionDeadline, this.stepDeadline := leaseDeadline, sessionDeadline, stepDeadline;
      stopped, stopReason, serverStop := false, None, false;
    }

    method Stop(cause: Cause)
      modifies this
      ensures View() == Halted(old(View()), cause)
    {
      if !stopped {
        stopped, stopReason := true, Some(cause);
      }
    }

    method Check(sample: Option<int>) returns (ok: bool)
      modifies this
      ensures ok == Passes(old(View()), sample)
      ensures View() == Checked(old(View()), sample)
    {
      if stopped {
        return false;
      }
      if sample.None? || sample.value < 0 || sample.value >= Limit(View()) {
        Stop(StaleLease);
        return false;
      }
      return true;
    }

    method Heartbeat(start: int, received: int, response: Option<Response>, sample: Option<int>) returns (ok: bool)
      modifies this
      ensures View() == HeartbeatHandled(old(View()), start, received, response, sample)
      ensures ok == Renewed(old(View()), start, received, response, sample)
    {
      if response.None? {
        Stop(StaleLease);
        return false;
      }
      var r := response.value;
      if r.signal == StopNow {
        if r.stopReason.None? || !r.stopReason.value.Stop() {
          Stop(StaleLease);
          return false;
        }
        serverStop := true;
        Stop(ServerStop(r.stopReason.value));
        return false;
      }
      var lease := FromAuthority(start, received, r.observed, r.leaseUntil, LEASE_LIMIT);
      var session := FromAuthority(start, received, r.observed, r.sessionExpiresAt, SESSION_LIMIT);
      if r.signal != Continue || r.stopReason != None || lease.Failure? || session.Failure? {
        Stop(StaleLease);
        return false;
      }
      ok := Check(sample);
      if !ok {
        return;
      }
      if received >= Limit(View()) {
        Stop(StaleLease);
        return false;
      }
      leaseDeadline, sessionDeadline := lease.value, session.value;
    }
  }

  method NewKeeper(grant: Grant, sessionDeadline: int, start: int, received: int) returns (keeper: Option<Keeper>)
    ensures keeper.Some? == Created(grant, sessionDeadline, start, received).Some?
    ensures keeper.Some? ==>
              fresh(keeper.value) && Some(keeper.value.View()) == Created(grant, sessionDeadline, start, received)
  {
    if sessionDeadline <= received {
      return None;
    }
    var lease := FromAuthority(start, received, grant.observed, grant.leaseUntil, LEASE_LIMIT);
    if lease.Failure? {
      return None;
    }
    var attempt := FromAuthority(start, received, grant.observed, grant.attemptDeadline, ATTEMPT_LIMIT);
    if attempt.Failure? {
      return None;
    }
    var run := FromAuthority(start, received, grant.observed, grant.runDeadline, DAY);
    if run.Failure? {
      return None;
    }
    var k := new Keeper(lease.value, sessionDeadline, Least(attempt.value, run.value));
    return Some(k);
  }

  // ---------- revocation is irreversible ----------

  datatype Operation =
    | CheckAt(sample: Option<int>)
    | Beat(start: int, received: int, response: Option<Response>, sample: Option<int>)
    | Revoke(cause: Cause)

  function Performed(k: KeeperView, op: Operation): KeeperView {
    match op
    case CheckAt(sample) => Checked(k, sample)
    case Beat(start, received, response, sample) => HeartbeatHandled(k, start, received, response, sample)
    case Revoke(cause) => Halted(k, cause)
  }

  function Replay(k: KeeperView, ops: seq<Operation>): KeeperView
    decreases |ops|
  {
    if ops == [] then k else Replay(Performed(k, ops[0]), ops[1..])
  }

  /** After one failed Check no sequence of heartbeats, whenever they arrive, ever lets a Check pass again. */
  lemma RevokedForever(k: KeeperView, failed: Option<int>, ops: seq<Operation>, sample: Option<int>)
    requires !Passes(k, failed)
    ensures var later := Replay(Checked(k, failed), ops);
            && later.stopped && !Passes(later, sample)
            && later.stopReason == Checked(k, failed).stopReason
            && (later.leaseDeadline, later.sessionDeadline) == (k.leaseDeadline, k.sessionDeadline)
  {
    StoppedForever(Checked(k, failed), ops);
  }

  lemma {:induction false} StoppedForever(k: KeeperView, ops: seq<Operation>)
    requires k.stopped
    ensures var later := Replay(k, ops);
            && later == k.(serverStop := later.serverStop) && (k.serverStop ==> later.serverStop)
    decreases |ops|
  {
    if ops != [] {
      StoppedForever(Performed(k, ops[0]), ops[1..]);
    }
  }

  /** Only a heartbeat that was handled under still-valid old authority changes a deadline, and never the step's. */
  lemma RenewalNeedsOldAuthority(k: KeeperView, op: Operation)
    ensures var next := Performed(k, op);
            && next.stepDeadline == k.stepDeadline
            && ((next.leaseDeadline, next.sessionDeadline) != (k.leaseDeadline, k.sessionDeadline)
                ==> op.Beat? && Passes(k, op.sample) && op.received < Limit(k) && !next.stopped)
  {
  }

  // ---------- exactly how long authority lasts ----------

  /** A Continue reply that carries these stamps. */
  function Renewal(observed: Time, leaseUntil: Time, sessionExpiresAt: Time): Response {
    Response(Continue, None, Some(observed), Some(leaseUntil), Some(sessionExpiresAt))
  }

  /** A local clock reads this at a database instant. */
  function Sampled(t: Time, offset: int): Option<int> {
    Some(LocalMillis(t, offset))
  }

  /** Every reading from this request on fits a local clock. */
  predicate Representable(sentAt: Time, offset: int, until: Time) {
    0 <= LocalMillis(sentAt, offset) && LocalMillis(until, offset) + DAY / NANOS_PER_MILLI <= MAX_MILLIS
  }

  /** Two milliseconds, plus the outbound delay, are left at `t` before the expiry. */
  predicate Ample(t: Time, expires: Time, delay: Time) {
    t + 2 * NANOS_PER_MILLI <= expires - delay
  }

  /**
    A renewal is worth what the database granted. The request left at `sentAt`, the database answered at
    `observed`, the reply arrived at `received` and was handled at `handled` under old authority that was
    still live. From then on a check at `t` passes if `t` is two milliseconds plus the outbound delay before
    both new expiries, and fails once that delay is all that is left of either. The step's own deadline
    still cuts both short.
  */
  lemma RenewalExtends(k: KeeperView, offset: int, sentAt: Time, observed: Time, received: Time, handled: Time, t: Time,
                       leaseUntil: Time, sessionExpiresAt: Time)
    requires sentAt <= observed && sentAt <= received <= handled <= t && Representable(sentAt, offset, observed)
    requires 0 < leaseUntil - observed <= LEASE_LIMIT && 0 < sessionExpiresAt - observed <= SESSION_LIMIT
    requires Ample(received, leaseUntil, observed - sentAt) && Ample(received, sessionExpiresAt, observed - sentAt)
    requires Passes(k, Sampled(handled, offset))
    ensures var beat := Beat(LocalMillis(sentAt, offset), LocalMillis(received, offset),
                             Some(Renewal(observed, leaseUntil, sessionExpiresAt)), Sampled(handled, offset));
            var renewed := Performed(k, beat);
            && ((Ample(t, leaseUntil, observed - sentAt) && Ample(t, sessionExpiresAt, observed - sentAt)
                 && LocalMillis(t, offset) < k.stepDeadline) ==> Passes(renewed, Sampled(t, offset)))
            && (Passes(renewed, Sampled(t, offset)) ==>
                  && LocalMillis(t, offset) < k.stepDeadline
                  && t < leaseUntil - (observed - sentAt) && t < sessionExpiresAt - (observed - sentAt))
  {
    var start, got := LocalMillis(sentAt, offset), LocalMillis(received, offset);
    PromptReplyMapped(sentAt, observed, leaseUntil, LEASE_LIMIT, offset, received);
    PromptReplyMapped(sentAt, observed, sessionExpiresAt, SESSION_LIMIT, offset, received);
    Conservative(sentAt, observed, leaseUntil, LEASE_LIMIT, offset, got, t);
    Conservative(sentAt, observed, sessionExpiresAt, SESSION_LIMIT, offset, got, t);
    if Ample(t, leaseUntil, observed - sentAt) {
      NearlyTight(sentAt, observed, leaseUntil, LEASE_LIMIT, offset, got, t);
    }
    if Ample(t, sessionExpiresAt, observed - sentAt) {
      NearlyTight(sentAt, observed, sessionExpiresAt, SESSION_LIMIT, offset, got, t);
    }
  }

  /** A new keeper passes no check at or after any expiry of its claim, less the outbound delay, or its session's end. */
  lemma CreatedIsBounded(offset: int, sentAt: Time, observed: Time, leaseUntil: Time, attemptDeadline: Time, runDeadline: Time,
                         sessionDeadline: int, received: int, t: Time)
    requires sentAt <= observed
    ensures var grant := Grant(Some(observed), Some(leaseUntil), Some(attemptDeadline), Some(runDeadline));
            var keeper := Created(grant, sessionDeadline, LocalMillis(sentAt, offset), received);
            keeper.Some? && Passes(keeper.value, Sampled(t, offset)) ==>
              && LocalMillis(t, offset) < sessionDeadline
              && t < leaseUntil - (observed - sentAt) && t < attemptDeadline - (observed - sentAt) && t < runDeadline - (observed - sentAt)
  {
    var grant := Grant(Some(observed), Some(leaseUntil), Some(attemptDeadline), Some(runDeadline));
    if Created(grant, sessionDeadline, LocalMillis(sentAt, offset), received).Some? {
      Conservative(sentAt, observed, leaseUntil, LEASE_LIMIT, offset, received, t);
      Conservative(sentAt, observed, attemptDeadline, ATTEMPT_LIMIT, offset, received, t);
      Conservative(sentAt, observed, runDeadline, DAY, offset, received, t);
    }
  }

  /** The server's answer ends the claim: none at all, a stop, anything that is not a plain Continue, or stamps that do not map. */
  predicate Ends(start: int, received: int, response: Option<Response>) {
    || response.None? || !response.value.signal.Continue? || response.value.stopReason.Some?
    || FromAuthority(start, received, response.value.observed, response.value.leaseUntil, LEASE_LIMIT).Failure?
    || FromAuthority(start, received, response.value.observed, response.value.sessionExpiresAt, SESSION_LIMIT).Failure?
  }

  /**
    After such an answer, or any answer that is late, no check ever passes again, whatever follows. The server's own stop cause is
    remembered as the first one when nothing had stopped the keeper before, and is acknowledged even then.
  */
  lemma EndedForever(k: KeeperView, start: int, received: int, response: Option<Response>, handled: Option<int>, ops: seq<Operation>,
                     sample: Option<int>)
    requires Ends(start, received, response) || !Passes(k, handled) || Limit(k) <= received
    ensures var later := Replay(k, [Beat(start, received, response, handled)] + ops);
            && later.stopped && !Passes(later, sample)
            && (response.Some? && response.value.signal.StopNow? && response.value.stopReason.Some? && response.value.stopReason.value.Stop() ==>
                  later.serverStop && (!k.stopped ==> later.stopReason == Some(ServerStop(response.value.stopReason.value))))
  {
    var all := [Beat(start, received, response, handled)] + ops;
    assert all[1..] == ops;
    StoppedForever(Performed(k, all[0]), ops);
  }
}
